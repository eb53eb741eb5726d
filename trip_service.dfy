/**
 * The trip service: creating and editing trips, join requests and the owner's reply,
 * and the read views. The user, trip and request repositories are the fields `users`,
 * `trips` and `requests`; saving an entity is updating its map entry, and the ids the
 * database would generate are taken from `nextTripId` and `nextRequestId`.
 */
module Service {
  import opened Domain
  import opened Paging
  import opened TripQueries

  /** A trip built by createNewTrip from `request` for `owner` (before the id is assigned). */
  ghost predicate CreatedFrom(t: Trip, request: TripCreatingRequest, owner: UserId)
  {
    && t.createdBy == owner
    && t.startingPoint == request.from
    && t.destination == request.to
    && t.maxCapacity == request.capacity
    && t.pricePerPerson == request.price
    && t.beginAt == request.beginAt
    && t.endAt == request.endAt
    && t.description == request.description
    && t.status == Waiting
    && t.restrictions == RestrictionsOf(request.restrictions)
    && t.participants == {owner}
  }

  /** `after` is `before` edited by `request`: the editable fields replaced, all others kept. */
  ghost predicate EditedFrom(after: Trip, before: Trip, request: TripEditingRequest)
  {
    && after.description == request.description
    && after.beginAt == request.beginAt
    && after.endAt == request.endAt
    && after.pricePerPerson == request.price
    && after.restrictions == RestrictionsOf(request.restrictions)
    && after.id == before.id
    && after.createdBy == before.createdBy
    && after.startingPoint == before.startingPoint
    && after.destination == before.destination
    && after.maxCapacity == before.maxCapacity
    && after.status == before.status
    && after.participants == before.participants
  }

  /** `new Trip()`: no restrictions and no participants yet; the other fields are set later. */
  method EmptyTrip() returns (t: Trip)
    ensures t.restrictions == [] && t.participants == {}
  {
    var price: Price := *;
    var at: Timestamp := *;
    t := Trip(0, 0, "", "", 0, price, at, at, "", Waiting, [], {});
  }

  /** populate: copies route, capacity, price, time window and description, sets WAITING, appends the restrictions. */
  method Populate(request: TripCreatingRequest, newTrip: Trip) returns (t: Trip)
    ensures t.startingPoint == request.from && t.destination == request.to
    ensures t.maxCapacity == request.capacity && t.pricePerPerson == request.price
    ensures t.beginAt == request.beginAt && t.endAt == request.endAt
    ensures t.description == request.description && t.status == Waiting
    ensures t.restrictions == newTrip.restrictions + RestrictionsOf(request.restrictions)
    ensures t.id == newTrip.id && t.createdBy == newTrip.createdBy
    ensures t.participants == newTrip.participants
  {
    t := newTrip.(startingPoint := request.from, destination := request.to,
                  maxCapacity := request.capacity, pricePerPerson := request.price,
                  beginAt := request.beginAt, endAt := request.endAt,
                  description := request.description, status := Waiting);
    var restrictions := AddRestrictions(t.restrictions, request.restrictions);
    t := t.(restrictions := restrictions);
  }

  /**
   * The views' envelope: a page over the whole list at the default page number and size.
   * Every trip of the list is projected, whatever the page size; the counts are those of the list.
   */
  function GetMultiItemsResponse<R>(project: Trip -> R, pagedTrip: seq<Trip>): (r: MultiItemsResponse<R>)
    ensures |r.content| == |pagedTrip| && r.totalElements == |pagedTrip|
    ensures forall i :: 0 <= i < |pagedTrip| ==> r.content[i] == project(pagedTrip[i])
    ensures r.page == DefaultPageNumber && r.size == DefaultPageSize
    ensures r.totalPages * DefaultPageSize >= |pagedTrip|
    ensures r.totalPages > 0 ==> (r.totalPages - 1) * DefaultPageSize < |pagedTrip|
    ensures r.last <==> |pagedTrip| <= DefaultPageSize
    ensures pagedTrip == [] ==> r.content == [] && r.totalPages == 0 && r.last
  {
    var rs := PageImpl(pagedTrip, PageRequest(DefaultPageNumber, DefaultPageSize), |pagedTrip|);
    TotalPagesBounds(rs);
    if rs.TotalElements() == 0 then
      MultiItemsResponse([], rs.Number(), rs.Size(), rs.TotalElements(), rs.TotalPages(), rs.IsLast())
    else
      // rs.map(mapToTripResponse).getContent()
      var content := seq(|rs.content|, i requires 0 <= i < |rs.content| => project(rs.content[i]));
      MultiItemsResponse(content, rs.Number(), rs.Size(),
                         rs.TotalElements(), rs.TotalPages(), rs.IsLast())
  }

  /** The ids in [lo, hi) of the stored trips that satisfy `q` and are projected to `x`. */
  ghost function ProjectingIn<R>(trips: map<nat, Trip>, q: TripQuery, project: Trip -> R, x: R, lo: nat, hi: nat): set<nat>
  {
    set id | id in trips && lo <= id < hi && Matches(q, trips[id]) && project(trips[id]) == x
  }

  /** Peeling the lowest id off a range of matching ids projected to `x`. */
  lemma ProjectingInStep<R>(trips: map<nat, Trip>, q: TripQuery, project: Trip -> R, x: R, lo: nat, hi: nat)
    requires lo < hi
    ensures lo in trips && Matches(q, trips[lo]) && project(trips[lo]) == x ==>
      ProjectingIn(trips, q, project, x, lo, hi) == {lo} + ProjectingIn(trips, q, project, x, lo + 1, hi)
    ensures !(lo in trips && Matches(q, trips[lo]) && project(trips[lo]) == x) ==>
      ProjectingIn(trips, q, project, x, lo, hi) == ProjectingIn(trips, q, project, x, lo + 1, hi)
    ensures lo !in ProjectingIn(trips, q, project, x, lo + 1, hi)
  {
  }

  /** Adding an id not yet in a set grows it by one. */
  lemma AddFreshId(ids: set<nat>, id: nat)
    requires id !in ids
    ensures |{id} + ids| == |ids| + 1
  {
  }

  /** The envelope of a list that starts with `t` lists `t`'s projection first, then the rest's. */
  lemma ContentCons<R>(project: Trip -> R, t: Trip, rest: seq<Trip>)
    ensures GetMultiItemsResponse(project, [t] + rest).content
         == [project(t)] + GetMultiItemsResponse(project, rest).content
  {
  }

  /**
   * Projecting the query's result lists each value `x` exactly as often as there are
   * matching trips in range that project to `x`.
   */
  lemma {:induction false} FindAllMultiplicity<R>(project: Trip -> R, trips: map<nat, Trip>, q: TripQuery, x: R, lo: nat, hi: nat)
    requires WellKeyed(trips)
    decreases hi - lo
    ensures multiset(GetMultiItemsResponse(project, FindAll(trips, q, lo, hi)).content)[x]
         == |ProjectingIn(trips, q, project, x, lo, hi)|
  {
    if hi <= lo {
      assert ProjectingIn(trips, q, project, x, lo, hi) == {};
    } else {
      var rest := FindAll(trips, q, lo + 1, hi);
      var listed := GetMultiItemsResponse(project, rest).content;
      FindAllMultiplicity(project, trips, q, x, lo + 1, hi);
      ProjectingInStep(trips, q, project, x, lo, hi);
      if lo in trips && Matches(q, trips[lo]) {
        assert FindAll(trips, q, lo, hi) == [trips[lo]] + rest;
        ContentCons(project, trips[lo], rest);
        assert multiset([project(trips[lo])] + listed) == multiset([project(trips[lo])]) + multiset(listed);
        if project(trips[lo]) == x {
          AddFreshId(ProjectingIn(trips, q, project, x, lo + 1, hi), lo);
        }
      } else {
        assert FindAll(trips, q, lo, hi) == rest;
      }
    }
  }

  /**
   * A view over the trips selected by `q`: it lists one projected trip per matching stored
   * trip, every listed item is the projection of a matching trip, and every matching trip
   * is listed.
   */
  lemma ViewContents<R>(project: Trip -> R, trips: map<nat, Trip>, q: TripQuery, hi: nat)
    requires WellKeyed(trips)
    requires forall id :: id in trips ==> id < hi
    ensures var r := GetMultiItemsResponse(project, FindAll(trips, q, 0, hi));
      && |r.content| == r.totalElements == |MatchingIds(trips, q)|
      && (forall x :: x in r.content ==>
            exists id :: id in trips && Matches(q, trips[id]) && x == project(trips[id]))
      && (forall id :: id in trips && Matches(q, trips[id]) ==> project(trips[id]) in r.content)
  {
    var ts := FindAll(trips, q, 0, hi);
    var r := GetMultiItemsResponse(project, ts);
    QueryCount(trips, q, hi);
    forall x | x in r.content
      ensures exists id :: id in trips && Matches(q, trips[id]) && x == project(trips[id])
    {
      var i :| 0 <= i < |r.content| && r.content[i] == x;
      assert trips[ts[i].id] == ts[i];
    }
    forall id | id in trips && Matches(q, trips[id])
      ensures project(trips[id]) in r.content
    {
      var i :| 0 <= i < |ts| && ts[i] == trips[id];
      assert r.content[i] == project(trips[id]);
    }
  }

  /**
   * In a view over the trips selected by `q`, a value is listed exactly as often as there
   * are matching stored trips projected to it.
   */
  lemma ViewMultiplicity<R>(project: Trip -> R, trips: map<nat, Trip>, q: TripQuery, hi: nat, x: R)
    requires WellKeyed(trips)
    requires forall id :: id in trips ==> id < hi
    ensures multiset(GetMultiItemsResponse(project, FindAll(trips, q, 0, hi)).content)[x] ==
      |set id | id in trips && Matches(q, trips[id]) && project(trips[id]) == x|
  {
    FindAllMultiplicity(project, trips, q, x, 0, hi);
    assert ProjectingIn(trips, q, project, x, 0, hi) ==
      set id | id in trips && Matches(q, trips[id]) && project(trips[id]) == x;
  }

  /** ViewContents and ViewMultiplicity for a status query, with the query's condition spelled out. */
  lemma StatusViewContents<R>(project: Trip -> R, trips: map<nat, Trip>, status: TripStatus, hi: nat)
    requires WellKeyed(trips)
    requires forall id :: id in trips ==> id < hi
    ensures var r := GetMultiItemsResponse(project, FindAll(trips, ByStatus(status), 0, hi));
      && |r.content| == r.totalElements == |set id | id in trips && trips[id].status == status|
      && (forall x :: x in r.content ==>
            exists id :: id in trips && trips[id].status == status && x == project(trips[id]))
      && (forall id :: id in trips && trips[id].status == status ==> project(trips[id]) in r.content)
      && (forall x :: multiset(r.content)[x] ==
            |set id | id in trips && trips[id].status == status && project(trips[id]) == x|)
  {
    var q := ByStatus(status);
    var r := GetMultiItemsResponse(project, FindAll(trips, q, 0, hi));
    forall x
      ensures multiset(r.content)[x] ==
        |set id | id in trips && trips[id].status == status && project(trips[id]) == x|
    {
      ViewMultiplicity(project, trips, q, hi, x);
      assert (set id | id in trips && Matches(q, trips[id]) && project(trips[id]) == x)
          == (set id | id in trips && trips[id].status == status && project(trips[id]) == x);
    }
    assert MatchingIds(trips, q) == set id | id in trips && trips[id].status == status;
    ViewContents(project, trips, q, hi);
  }

  /** ViewContents and ViewMultiplicity for a participant-and-status query, with the query's condition spelled out. */
  lemma ParticipantViewContents<R>(project: Trip -> R, trips: map<nat, Trip>, user: UserId, status: TripStatus, hi: nat)
    requires WellKeyed(trips)
    requires forall id :: id in trips ==> id < hi
    ensures var r := GetMultiItemsResponse(project, FindAll(trips, ByParticipantAndStatus(user, status), 0, hi));
      && |r.content| == r.totalElements
      && r.totalElements == |set id | id in trips && user in trips[id].participants && trips[id].status == status|
      && (forall x :: x in r.content ==>
            exists id :: id in trips && user in trips[id].participants
                           && trips[id].status == status && x == project(trips[id]))
      && (forall id :: id in trips && user in trips[id].participants && trips[id].status == status
            ==> project(trips[id]) in r.content)
      && (forall x :: multiset(r.content)[x] ==
            |set id | id in trips && user in trips[id].participants && trips[id].status == status
                      && project(trips[id]) == x|)
  {
    var q := ByParticipantAndStatus(user, status);
    var r := GetMultiItemsResponse(project, FindAll(trips, q, 0, hi));
    forall x
      ensures multiset(r.content)[x] ==
        |set id | id in trips && user in trips[id].participants && trips[id].status == status
                  && project(trips[id]) == x|
    {
      ViewMultiplicity(project, trips, q, hi, x);
      assert (set id | id in trips && Matches(q, trips[id]) && project(trips[id]) == x)
          == (set id | id in trips && user in trips[id].participants && trips[id].status == status
                       && project(trips[id]) == x);
    }
    assert MatchingIds(trips, q) ==
      set id | id in trips && user in trips[id].participants && trips[id].status == status;
    ViewContents(project, trips, q, hi);
  }

  /** Some request of `requests` asks to join trip `tripId` and was sent by `p`. */
  ghost predicate RequestedBy(requests: map<nat, TripRequest>, p: UserId, tripId: nat)
  {
    exists rid :: rid in requests && requests[rid].trip == tripId && requests[rid].sender == p
  }

  class TripService {
    var users: set<UserId>
    var trips: map<nat, Trip>
    var requests: map<nat, TripRequest>
    var nextTripId: nat
    var nextRequestId: nat

    /**
     * The store's invariant: records carry their keys, which are below the next ids;
     * requests refer to stored trips and known users; every trip's owner is one of its
     * participants; and every other participant sent a join request for that trip.
     */
    ghost predicate Valid()
      reads this
    {
      && (forall id :: id in trips ==> id < nextTripId && trips[id].id == id)
      && (forall id :: id in trips ==> trips[id].createdBy in trips[id].participants)
      && (forall id :: id in trips ==> trips[id].participants <= users)
      && (forall id :: id in requests ==> id < nextRequestId && requests[id].id == id)
      && (forall id :: id in requests ==> requests[id].trip in trips)
      && (forall id :: id in requests ==> requests[id].sender in users && requests[id].receiver in users)
      && (forall id, p :: id in trips && p in trips[id].participants && p != trips[id].createdBy ==>
            RequestedBy(requests, p, id))
    }

    /** A service over the given registered users, with no trips and no requests. */
    constructor (users: set<UserId>)
      ensures Valid()
      ensures this.users == users && trips == map[] && requests == map[]
      ensures nextTripId == 0 && nextRequestId == 0
    {
      this.users := users;
      trips := map[];
      requests := map[];
      nextTripId := 0;
      nextRequestId := 0;
    }

    /**
     * createNewTrip: stores a new WAITING trip owned by `currentUser`, who is its one
     * participant, with the request's route, capacity, price, time window, description and
     * restrictions; an unknown owner fails with UserNotFound and stores nothing.
     */
    method CreateNewTrip(request: TripCreatingRequest, currentUser: UserId) returns (r: Result<Trip>)
      requires Valid()
      modifies this
      ensures Valid()
      ensures users == old(users) && requests == old(requests) && nextRequestId == old(nextRequestId)
      ensures currentUser !in users ==>
        r == Failure(UserNotFound) && trips == old(trips) && nextTripId == old(nextTripId)
      ensures currentUser in users ==>
        && r.Success?
        && r.value.id == old(nextTripId) && r.value.id !in old(trips)
        && CreatedFrom(r.value, request, currentUser)
        && trips == old(trips)[r.value.id := r.value]
        && nextTripId == old(nextTripId) + 1
    {
      if currentUser !in users {
        return Failure(UserNotFound);
      }
      var newTrip := EmptyTrip();
      newTrip := newTrip.(createdBy := currentUser);
      newTrip := Populate(request, newTrip);
      newTrip := newTrip.(participants := newTrip.participants + {currentUser});
      var saved := newTrip.(id := nextTripId);
      ghost var before := trips;
      trips := trips[saved.id := saved];
      nextTripId := nextTripId + 1;
      forall tid, p | tid in trips && p in trips[tid].participants && p != trips[tid].createdBy
        ensures RequestedBy(requests, p, tid)
      {
        assert tid in before && trips[tid] == before[tid];
      }
      r := Success(saved);
    }

    /**
     * createJoiningRequest: stores one new request for `tripId` from `senderId` to
     * `tripOwnerId`, already ACCEPTED; trips are untouched. An unknown sender or
     * receiver fails with UserNotFound and stores nothing.
     */
    method CreateJoiningRequest(tripId: nat, tripOwnerId: UserId, senderId: UserId) returns (o: Outcome)
      requires Valid()
      requires tripId in trips
      modifies this
      ensures Valid()
      ensures users == old(users) && trips == old(trips) && nextTripId == old(nextTripId)
      ensures tripOwnerId !in users || senderId !in users ==>
        o == Failed(UserNotFound) && requests == old(requests) && nextRequestId == old(nextRequestId)
      ensures tripOwnerId in users && senderId in users ==>
        && o == Done
        && old(nextRequestId) !in old(requests)
        && requests == old(requests)[old(nextRequestId) :=
             TripRequest(old(nextRequestId), tripId, senderId, tripOwnerId, Accepted)]
        && nextRequestId == old(nextRequestId) + 1
    {
      if tripOwnerId !in users || senderId !in users {
        return Failed(UserNotFound);
      }
      var id := nextRequestId;
      var newRequest := TripRequest(id, tripId, senderId, tripOwnerId, Accepted);
      ghost var before := requests;
      requests := requests[id := newRequest];
      nextRequestId := nextRequestId + 1;
      forall tid, p | tid in trips && p in trips[tid].participants && p != trips[tid].createdBy
        ensures RequestedBy(requests, p, tid)
      {
        var rid :| rid in before && before[rid].trip == tid && before[rid].sender == p;
        assert rid in requests && requests[rid] == before[rid];
      }
      o := Done;
    }

    /**
     * replyJoiningRequest: only the request's receiver may reply. Accepting marks the
     * request ACCEPTED and adds its sender to the trip's participants; declining marks it
     * DECLINED. There is no capacity check and no check that the request was still open.
     */
    method ReplyJoiningRequest(requestId: nat, currentUser: UserId, reply: TripReplyingRequest)
      returns (o: Outcome)
      requires Valid()
      modifies this
      ensures Valid()
      ensures users == old(users) && nextTripId == old(nextTripId) && nextRequestId == old(nextRequestId)
      ensures requestId !in old(requests) ==>
        o == Failed(RequestNotFound) && trips == old(trips) && requests == old(requests)
      ensures requestId in old(requests) && old(requests)[requestId].receiver != currentUser ==>
        o == Failed(PermissionDenied) && trips == old(trips) && requests == old(requests)
      ensures requestId in old(requests) && old(requests)[requestId].receiver == currentUser ==>
        var rq := old(requests)[requestId];
        && o == Done
        && requests == old(requests)[requestId := rq.(status := if reply.accept then Accepted else Declined)]
        && (reply.accept ==>
              && rq.trip in old(trips)
              && trips == old(trips)[rq.trip :=
                   old(trips)[rq.trip].(participants := old(trips)[rq.trip].participants + {rq.sender})])
        && (!reply.accept ==> trips == old(trips))
    {
      if requestId !in requests {
        return Failed(RequestNotFound);
      }
      var request := requests[requestId];
      var tripOwner := request.receiver;
      var sender := request.sender;
      if tripOwner != currentUser {
        return Failed(PermissionDenied);
      }
      ghost var before := requests;
      if reply.accept {
        request := request.(status := Accepted);
        var trip := trips[request.trip];
        trips := trips[request.trip := trip.(participants := trip.participants + {sender})];
      } else {
        request := request.(status := Declined);
      }
      requests := requests[requestId := request];
      forall tid, p | tid in trips && p in trips[tid].participants && p != trips[tid].createdBy
        ensures RequestedBy(requests, p, tid)
      {
        if reply.accept && tid == request.trip && p == sender {
          assert requests[requestId].trip == tid && requests[requestId].sender == p;
        } else {
          var rid :| rid in before && before[rid].trip == tid && before[rid].sender == p;
          assert rid in requests && requests[rid].trip == tid && requests[rid].sender == p;
        }
      }
      o := Done;
    }

    /**
     * updateExistingTrip: replaces the description, time window, price and the whole
     * restriction list of a stored trip and keeps everything else; an unknown trip fails
     * with TripNotFound and stores nothing.
     */
    method UpdateExistingTrip(tripId: nat, request: TripEditingRequest) returns (o: Outcome)
      requires Valid()
      modifies this
      ensures Valid()
      ensures users == old(users) && requests == old(requests)
      ensures nextTripId == old(nextTripId) && nextRequestId == old(nextRequestId)
      ensures tripId !in old(trips) ==> o == Failed(TripNotFound) && trips == old(trips)
      ensures tripId in old(trips) ==>
        && o == Done
        && tripId in trips
        && EditedFrom(trips[tripId], old(trips)[tripId], request)
        && trips == old(trips)[tripId := trips[tripId]]
    {
      if tripId !in trips {
        return Failed(TripNotFound);
      }
      var trip := trips[tripId];
      trip := trip.(description := request.description, beginAt := request.beginAt,
                    endAt := request.endAt, pricePerPerson := request.price);
      trip := trip.(restrictions := []);
      var restrictions := AddRestrictions(trip.restrictions, request.restrictions);
      trip := trip.(restrictions := restrictions);
      trips := trips[tripId := trip];
      o := Done;
    }

    /** getTripById: the projection of the stored trip, for any caller; TripNotFound when absent. */
    function GetTripById<R>(project: Trip -> R, currentUser: UserId, tripId: nat): (r: Result<R>)
      reads this
      ensures r.Success? <==> tripId in trips
      ensures r.Success? ==> r.value == project(trips[tripId])
      ensures r.Failure? ==> r.error == TripNotFound
    {
      if tripId in trips then Success(project(trips[tripId])) else Failure(TripNotFound)
    }

    /** getAllWaitingTrips: every WAITING trip, projected; the page arguments are not used. */
    function GetAllWaitingTrips<R(!new)>(project: Trip -> R, page: int, size: int): (r: MultiItemsResponse<R>)
      reads this
      requires Valid()
      ensures |r.content| == r.totalElements == |set id | id in trips && trips[id].status == Waiting|
      ensures forall x :: x in r.content ==>
        exists id :: id in trips && trips[id].status == Waiting && x == project(trips[id])
      ensures forall id :: id in trips && trips[id].status == Waiting ==> project(trips[id]) in r.content
      ensures forall x :: (multiset(r.content)[x] ==
        |set id | id in trips && trips[id].status == Waiting && project(trips[id]) == x|)
    {
      var q := ByStatus(Waiting);
      StatusViewContents(project, trips, Waiting, nextTripId);
      GetMultiItemsResponse(project, FindAll(trips, q, 0, nextTripId))
    }

    /**
     * getAllJoinedTrips: every FINISHED trip the caller participates in, projected. The page
     * arguments only have to pass PageRequest.of and do not select anything; an unknown
     * caller fails with UserNotFound.
     */
    function GetAllJoinedTrips<R(!new)>(project: Trip -> R, currentUser: UserId, page: int, size: int)
      : (r: Result<MultiItemsResponse<R>>)
      reads this
      requires Valid()
      ensures r.Failure? <==> currentUser !in users || !ValidPageRequest(page, size)
      ensures currentUser !in users ==> r == Failure(UserNotFound)
      ensures currentUser in users && !ValidPageRequest(page, size) ==> r == Failure(InvalidPageRequest)
      ensures r.Success? ==>
        && |r.value.content| == r.value.totalElements
        && r.value.totalElements ==
             |set id | id in trips && currentUser in trips[id].participants && trips[id].status == Finished|
        && (forall x :: x in r.value.content ==>
              exists id :: id in trips && currentUser in trips[id].participants
                             && trips[id].status == Finished && x == project(trips[id]))
        && (forall id :: id in trips && currentUser in trips[id].participants && trips[id].status == Finished
              ==> project(trips[id]) in r.value.content)
        && (forall x :: multiset(r.value.content)[x] ==
              |set id | id in trips && currentUser in trips[id].participants && trips[id].status == Finished
                        && project(trips[id]) == x|)
    {
      if currentUser !in users then Failure(UserNotFound)
      else if !ValidPageRequest(page, size) then Failure(InvalidPageRequest)
      else
        var q := ByParticipantAndStatus(currentUser, Finished);
        ParticipantViewContents(project, trips, currentUser, Finished, nextTripId);
        Success(GetMultiItemsResponse(project, FindAll(trips, q, 0, nextTripId)))
    }

    /**
     * getAllCreateTrips: every WAITING trip the caller participates in, projected, whoever
     * created it. The page arguments only have to pass PageRequest.of and do not select
     * anything; an unknown caller fails with UserNotFound.
     */
    function GetAllCreateTrips<R(!new)>(project: Trip -> R, currentUser: UserId, page: int, size: int)
      : (r: Result<MultiItemsResponse<R>>)
      reads this
      requires Valid()
      ensures r.Failure? <==> currentUser !in users || !ValidPageRequest(page, size)
      ensures currentUser !in users ==> r == Failure(UserNotFound)
      ensures currentUser in users && !ValidPageRequest(page, size) ==> r == Failure(InvalidPageRequest)
      ensures r.Success? ==>
        && |r.value.content| == r.value.totalElements
        && r.value.totalElements ==
             |set id | id in trips && currentUser in trips[id].participants && trips[id].status == Waiting|
        && (forall x :: x in r.value.content ==>
              exists id :: id in trips && currentUser in trips[id].participants
                             && trips[id].status == Waiting && x == project(trips[id]))
        && (forall id :: id in trips && currentUser in trips[id].participants && trips[id].status == Waiting
              ==> project(trips[id]) in r.value.content)
        && (forall x :: multiset(r.value.content)[x] ==
              |set id | id in trips && currentUser in trips[id].participants && trips[id].status == Waiting
                        && project(trips[id]) == x|)
    {
      if currentUser !in users then Failure(UserNotFound)
      else if !ValidPageRequest(page, size) then Failure(InvalidPageRequest)
      else
        var q := ByParticipantAndStatus(currentUser, Waiting);
        ParticipantViewContents(project, trips, currentUser, Waiting, nextTripId);
        Success(GetMultiItemsResponse(project, FindAll(trips, q, 0, nextTripId)))
    }

    /**
     * The views do not depend on the page and size they are given, beyond the joined and
     * created views refusing arguments that PageRequest.of refuses.
     */
    lemma ViewsIgnorePaging<R(!new)>(project: Trip -> R, currentUser: UserId, p1: int, s1: int, p2: int, s2: int)
      requires Valid()
      ensures GetAllWaitingTrips(project, p1, s1) == GetAllWaitingTrips(project, p2, s2)
      ensures ValidPageRequest(p1, s1) && ValidPageRequest(p2, s2) ==>
        && GetAllJoinedTrips(project, currentUser, p1, s1) == GetAllJoinedTrips(project, currentUser, p2, s2)
        && GetAllCreateTrips(project, currentUser, p1, s1) == GetAllCreateTrips(project, currentUser, p2, s2)
    {
    }

    /** The by-id lookup does not depend on who asks. */
    lemma GetTripByIdIgnoresCaller<R>(project: Trip -> R, a: UserId, b: UserId, tripId: nat)
      ensures GetTripById(project, a, tripId) == GetTripById(project, b, tripId)
    {
    }
  }
}
