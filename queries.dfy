/**
 * The two finder queries of the trip repository the views use,
 * findAllByStatus and findAllByParticipantsAndStatus, as filters over the trip store.
 */
module TripQueries {
  import opened Domain

  datatype TripQuery =
    | ByStatus(status: TripStatus)
    | ByParticipantAndStatus(user: UserId, status: TripStatus)

  predicate Matches(q: TripQuery, t: Trip)
  {
    match q
    case ByStatus(s) => t.status == s
    case ByParticipantAndStatus(u, s) => u in t.participants && t.status == s
  }

  /** Every stored trip carries the id it is stored under. */
  ghost predicate WellKeyed(trips: map<nat, Trip>)
  {
    forall id :: id in trips ==> trips[id].id == id
  }

  /** The ids in [lo, hi) of the stored trips that satisfy `q`. */
  ghost function MatchingIn(trips: map<nat, Trip>, q: TripQuery, lo: nat, hi: nat): set<nat>
  {
    set id | id in trips && lo <= id < hi && Matches(q, trips[id])
  }

  /** The ids of all stored trips that satisfy `q`. */
  ghost function MatchingIds(trips: map<nat, Trip>, q: TripQuery): set<nat>
  {
    set id | id in trips && Matches(q, trips[id])
  }

  /**
   * The stored trips with an id in [lo, hi) that satisfy `q`, in ascending id order:
   * each listed trip is stored and matches, none is listed twice, and none is missed.
   */
  function FindAll(trips: map<nat, Trip>, q: TripQuery, lo: nat, hi: nat): (r: seq<Trip>)
    requires WellKeyed(trips)
    decreases hi - lo
    ensures forall i :: 0 <= i < |r| ==>
      lo <= r[i].id < hi && r[i].id in trips && trips[r[i].id] == r[i] && Matches(q, r[i])
    ensures forall i, j :: 0 <= i < j < |r| ==> r[i].id < r[j].id
    ensures forall id :: id in trips && lo <= id < hi && Matches(q, trips[id]) ==> trips[id] in r
  {
    if hi <= lo then []
    else
      var rest := FindAll(trips, q, lo + 1, hi);
      if lo in trips && Matches(q, trips[lo]) then [trips[lo]] + rest else rest
  }

  /** Peeling the lowest id off a non-empty range of matching ids. */
  lemma MatchingInStep(trips: map<nat, Trip>, q: TripQuery, lo: nat, hi: nat)
    requires lo < hi
    ensures lo in trips && Matches(q, trips[lo]) ==>
      MatchingIn(trips, q, lo, hi) == {lo} + MatchingIn(trips, q, lo + 1, hi)
    ensures !(lo in trips && Matches(q, trips[lo])) ==>
      MatchingIn(trips, q, lo, hi) == MatchingIn(trips, q, lo + 1, hi)
    ensures lo !in MatchingIn(trips, q, lo + 1, hi)
  {
  }

  /** The query lists exactly as many trips as there are matching ids in range. */
  lemma {:induction false} FindAllCount(trips: map<nat, Trip>, q: TripQuery, lo: nat, hi: nat)
    requires WellKeyed(trips)
    decreases hi - lo
    ensures |FindAll(trips, q, lo, hi)| == |MatchingIn(trips, q, lo, hi)|
  {
    if hi <= lo {
      assert MatchingIn(trips, q, lo, hi) == {};
    } else {
      FindAllCount(trips, q, lo + 1, hi);
      MatchingInStep(trips, q, lo, hi);
    }
  }

  /** Over a range holding every stored id, the query lists one trip per matching id. */
  lemma QueryCount(trips: map<nat, Trip>, q: TripQuery, hi: nat)
    requires WellKeyed(trips)
    requires forall id :: id in trips ==> id < hi
    ensures |FindAll(trips, q, 0, hi)| == |MatchingIds(trips, q)|
  {
    FindAllCount(trips, q, 0, hi);
    assert MatchingIn(trips, q, 0, hi) == MatchingIds(trips, q);
  }
}
