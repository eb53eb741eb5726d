/**
 * Client call sequences on the trip service, proved from the service's contracts alone. Each one
 * shows a behaviour the service has as written: join requests that start ACCEPTED,
 * replies without a capacity check or a one-reply-only guard, and a "created trips" view
 * that lists trips the caller only joined.
 */
module Scenarios {
  import opened Domain
  import opened Paging
  import opened Service

  /** A trip from "A" to "B" with the given capacity and no restrictions. */
  function Offer(capacity: int, price: Price, at: Timestamp): TripCreatingRequest
  {
    TripCreatingRequest("A", "B", capacity, price, at, at, "ride", [])
  }

  /** Waiting trips of an empty store: no items, zero counts, and the page is the last one. */
  method WaitingTripsOfEmptyStore() returns (r: MultiItemsResponse<Trip>)
    ensures r.content == [] && r.totalElements == 0 && r.totalPages == 0 && r.last
  {
    var svc := new TripService({1});
    r := svc.GetAllWaitingTrips((t: Trip) => t, 0, 10);
  }

  /** A join request is stored as ACCEPTED before the owner replies, and the sender has not joined. */
  method JoinRequestStartsAccepted(price: Price, at: Timestamp)
    returns (status: TripRequestStatus, senderJoined: bool)
    ensures status == Accepted && !senderJoined
  {
    var svc := new TripService({1, 2});
    var created := svc.CreateNewTrip(Offer(2, price, at), 1);
    var tripId := created.value.id;
    var sent := svc.CreateJoiningRequest(tripId, 1, 2);
    status := svc.requests[0].status;
    senderJoined := 2 in svc.trips[tripId].participants;
  }

  /** `sender` asks the owner of `tripId` to join and the owner accepts. */
  method JoinAndAccept(svc: TripService, tripId: nat, sender: UserId)
    requires svc.Valid() && tripId in svc.trips
    requires svc.trips[tripId].createdBy in svc.users && sender in svc.users
    modifies svc
    ensures svc.Valid() && svc.users == old(svc.users)
    ensures svc.trips == old(svc.trips)[tripId :=
      old(svc.trips)[tripId].(participants := old(svc.trips)[tripId].participants + {sender})]
  {
    var owner := svc.trips[tripId].createdBy;
    var id := svc.nextRequestId;
    var sent := svc.CreateJoiningRequest(tripId, owner, sender);
    var reply := svc.ReplyJoiningRequest(id, owner, TripReplyingRequest(true));
  }

  /**
   * A trip for two people: the owner accepts two join requests and the trip ends up with
   * three participants.
   */
  method AcceptIgnoresCapacity(price: Price, at: Timestamp)
    returns (participants: set<UserId>, capacity: int)
    ensures participants == {1, 2, 3} && capacity == 2
    ensures |participants| > capacity
  {
    var svc := new TripService({1, 2, 3});
    var created := svc.CreateNewTrip(Offer(2, price, at), 1);
    var tripId := created.value.id;
    JoinAndAccept(svc, tripId, 2);
    JoinAndAccept(svc, tripId, 3);
    participants := svc.trips[tripId].participants;
    capacity := svc.trips[tripId].maxCapacity;
    assert participants == {1} + {2} + {3};
  }

  /**
   * A request accepted and then declined ends DECLINED while its sender stays a
   * participant: a reply may come after another reply and does not undo it.
   */
  method ReplyAfterReply(price: Price, at: Timestamp)
    returns (status: TripRequestStatus, senderJoined: bool)
    ensures status == Declined && senderJoined
  {
    var svc := new TripService({1, 2});
    var created := svc.CreateNewTrip(Offer(3, price, at), 1);
    var tripId := created.value.id;
    var sent := svc.CreateJoiningRequest(tripId, 1, 2);
    var accepted := svc.ReplyJoiningRequest(0, 1, TripReplyingRequest(true));
    var declined := svc.ReplyJoiningRequest(0, 1, TripReplyingRequest(false));
    status := svc.requests[0].status;
    senderJoined := 2 in svc.trips[tripId].participants;
  }

  /** Someone other than the receiver cannot reply, and nothing changes. */
  method StrangerCannotReply(price: Price, at: Timestamp)
    returns (o: Outcome, status: TripRequestStatus, senderJoined: bool)
    ensures o == Failed(PermissionDenied) && status == Accepted && !senderJoined
  {
    var svc := new TripService({1, 2, 3});
    var created := svc.CreateNewTrip(Offer(3, price, at), 1);
    var tripId := created.value.id;
    var sent := svc.CreateJoiningRequest(tripId, 1, 2);
    o := svc.ReplyJoiningRequest(0, 3, TripReplyingRequest(true));
    status := svc.requests[0].status;
    senderJoined := 2 in svc.trips[tripId].participants;
  }

  /** In a store holding one WAITING trip that `user` participates in, that trip is the only match. */
  lemma OnlyMatch(trips: map<nat, Trip>, id: nat, user: UserId)
    requires trips.Keys == {id} && user in trips[id].participants && trips[id].status == Waiting
    ensures (set i | i in trips && user in trips[i].participants && trips[i].status == Waiting) == {id}
  {
  }

  /** The "created trips" view of a store holding one WAITING trip that `user` participates in lists that trip alone. */
  lemma CreatedViewOfOneTrip(svc: TripService, tripId: nat, user: UserId, project: Trip -> UserId)
    requires svc.Valid() && user in svc.users && svc.trips.Keys == {tripId}
    requires user in svc.trips[tripId].participants && svc.trips[tripId].status == Waiting
    ensures svc.GetAllCreateTrips(project, user, 0, 10).Success?
    ensures svc.GetAllCreateTrips(project, user, 0, 10).value.content == [project(svc.trips[tripId])]
  {
    var view := svc.GetAllCreateTrips(project, user, 0, 10);
    OnlyMatch(svc.trips, tripId, user);
    var items := view.value.content;
    assert |items| == 1;
    assert items[0] in items;
  }

  /**
   * User 2 joins a WAITING trip that user 1 created; user 2's "created trips" view lists
   * it, with user 1 as its creator.
   */
  method CreatedViewListsJoinedTrip(price: Price, at: Timestamp) returns (creators: seq<UserId>)
    ensures creators == [1]
  {
    var svc := new TripService({1, 2});
    var created := svc.CreateNewTrip(Offer(3, price, at), 1);
    var tripId := created.value.id;
    JoinAndAccept(svc, tripId, 2);
    var creatorOf := (t: Trip) => t.createdBy;
    CreatedViewOfOneTrip(svc, tripId, 2, creatorOf);
    var view := svc.GetAllCreateTrips(creatorOf, 2, 0, 10);
    creators := view.value.content;
  }

  /** Editing a trip and reading it back shows exactly the new description, time window, price and restrictions. */
  method EditThenRead(price: Price, at: Timestamp, newPrice: Price, newAt: Timestamp)
    returns (r: Result<Trip>)
    ensures r.Success?
    ensures r.value.description == "changed" && r.value.pricePerPerson == newPrice
    ensures r.value.beginAt == newAt && r.value.endAt == newAt
    ensures TextsOf(r.value.restrictions) == ["no smoking"]
    ensures r.value.startingPoint == "A" && r.value.destination == "B" && r.value.maxCapacity == 3
  {
    var svc := new TripService({1});
    var created := svc.CreateNewTrip(TripCreatingRequest("A", "B", 3, price, at, at, "ride", ["pets", "music"]), 1);
    var tripId := created.value.id;
    var edited := svc.UpdateExistingTrip(tripId, TripEditingRequest("changed", newAt, newAt, newPrice, ["no smoking"]));
    r := svc.GetTripById((t: Trip) => t, 1, tripId);
    TextsOfRestrictionsOf(["no smoking"]);
  }
}
