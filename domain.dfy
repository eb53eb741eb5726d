/** The entities the trip service works on, as values, and the failures it reports. */
module Domain {

  /** A user is known to the service only by its id. */
  type UserId = nat

  /** The trip's price per person; the service copies it and never inspects it. */
  type Price(0, !new)

  /** A point in time (beginAt, endAt); the service copies it and never inspects it. */
  type Timestamp(0, !new)

  /** The two trip statuses the service reads or writes. */
  datatype TripStatus = Waiting | Finished

  /** The statuses of a join request. */
  datatype TripRequestStatus = Pending | Accepted | Declined

  /** A free-text rule attached to a trip ("no smoking"). */
  datatype TripRestriction = TripRestriction(text: string)

  datatype Trip = Trip(
    id: nat,
    createdBy: UserId,
    startingPoint: string,
    destination: string,
    maxCapacity: int,
    pricePerPerson: Price,
    beginAt: Timestamp,
    endAt: Timestamp,
    description: string,
    status: TripStatus,
    restrictions: seq<TripRestriction>,
    participants: set<UserId>)

  /** A join request: `sender` asks `receiver` (the trip's owner) to ride on trip `trip`. */
  datatype TripRequest = TripRequest(
    id: nat,
    trip: nat,
    sender: UserId,
    receiver: UserId,
    status: TripRequestStatus)

  /** The payload of "create a trip"; `restrictions` holds the restriction texts. */
  datatype TripCreatingRequest = TripCreatingRequest(
    from: string,
    to: string,
    capacity: int,
    price: Price,
    beginAt: Timestamp,
    endAt: Timestamp,
    description: string,
    restrictions: seq<string>)

  /** The payload of "edit a trip"; `restrictions` holds the new restriction texts. */
  datatype TripEditingRequest = TripEditingRequest(
    description: string,
    beginAt: Timestamp,
    endAt: Timestamp,
    price: Price,
    restrictions: seq<string>)

  /** The trip owner's answer to a join request. */
  datatype TripReplyingRequest = TripReplyingRequest(accept: bool)

  /** The exceptions the service lets escape, as values. */
  datatype ServiceError =
    | UserNotFound       // userRepository.getOne on an unknown id
    | TripNotFound       // ResourceNotFoundException("Trip", ...)
    | RequestNotFound    // requestRepository.getOne on an unknown id
    | PermissionDenied   // BadRequestException("Permission denied!!!")
    | InvalidPageRequest // IllegalArgumentException from PageRequest.of(page, size)

  datatype Result<T> = Success(value: T) | Failure(error: ServiceError)

  /** The outcome of an operation that returns nothing (`void` in the service). */
  datatype Outcome = Done | Failed(error: ServiceError)

  /** The restrictions built from a list of texts, one `new TripRestriction(text)` per text, in order. */
  function RestrictionsOf(texts: seq<string>): seq<TripRestriction>
  {
    if texts == [] then [] else [TripRestriction(texts[0])] + RestrictionsOf(texts[1..])
  }

  /** The texts of a list of restrictions, in order. */
  function TextsOf(rs: seq<TripRestriction>): seq<string>
  {
    if rs == [] then [] else [rs[0].text] + TextsOf(rs[1..])
  }

  /** One restriction per text, each carrying the text at the same position. */
  lemma {:induction false} RestrictionsOfAt(texts: seq<string>)
    ensures |RestrictionsOf(texts)| == |texts|
    ensures forall i :: 0 <= i < |texts| ==> RestrictionsOf(texts)[i] == TripRestriction(texts[i])
  {
    if texts != [] {
      RestrictionsOfAt(texts[1..]);
    }
  }

  /** Reading the texts back gives exactly the texts the restrictions were built from. */
  lemma {:induction false} TextsOfRestrictionsOf(texts: seq<string>)
    ensures TextsOf(RestrictionsOf(texts)) == texts
  {
    if texts != [] {
      TextsOfRestrictionsOf(texts[1..]);
      assert RestrictionsOf(texts)[1..] == RestrictionsOf(texts[1..]);
      assert texts == [texts[0]] + texts[1..];
    }
  }

  /** Building restrictions from the texts of a list gives that list back. */
  lemma {:induction false} RestrictionsOfTextsOf(rs: seq<TripRestriction>)
    ensures RestrictionsOf(TextsOf(rs)) == rs
  {
    if rs != [] {
      RestrictionsOfTextsOf(rs[1..]);
      assert TextsOf(rs)[1..] == TextsOf(rs[1..]);
      assert rs == [rs[0]] + rs[1..];
    }
  }

  /** Building restrictions distributes over concatenation of text lists. */
  lemma {:induction false} RestrictionsOfAppend(a: seq<string>, b: seq<string>)
    ensures RestrictionsOf(a + b) == RestrictionsOf(a) + RestrictionsOf(b)
  {
    if a == [] {
      assert a + b == b;
    } else {
      RestrictionsOfAppend(a[1..], b);
      assert (a + b)[1..] == a[1..] + b;
    }
  }

  /**
   * The `forEach(r -> trip.addRestriction(new TripRestriction(r.getText())))` loop:
   * appends one restriction per text, in order, to `existing`.
   */
  method AddRestrictions(existing: seq<TripRestriction>, texts: seq<string>) returns (rs: seq<TripRestriction>)
    ensures rs == existing + RestrictionsOf(texts)
    ensures |rs| == |existing| + |texts|
    ensures forall i :: 0 <= i < |texts| ==> rs[|existing| + i].text == texts[i]
  {
    rs := existing;
    var i := 0;
    while i < |texts|
      invariant 0 <= i <= |texts|
      invariant rs == existing + RestrictionsOf(texts[..i])
    {
      RestrictionsOfAppend(texts[..i], [texts[i]]);
      assert texts[..i + 1] == texts[..i] + [texts[i]];
      rs := rs + [TripRestriction(texts[i])];
      i := i + 1;
    }
    assert texts[..i] == texts;
    RestrictionsOfAt(texts);
  }
}
