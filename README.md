# Trip and join-request lifecycle of the sharexe server

This project models `TripService`, the class of the sharexe ride-sharing server that holds the trip logic. It covers:

- creating a trip;
- sending a join request and the owner's reply to it;
- editing a trip;
- the three list views (waiting trips, joined trips, created trips) and their page envelope;
- looking a trip up by id.

The store is the class `Service.TripService`. It holds the known users (`users`), the trip repository (`trips`, a map from id to `Trip`) and the request repository (`requests`, a map from id to `TripRequest`). It also holds the next ids a save would generate. The four operations that change state are methods with `modifies this`. Each one states its whole new state, keeps the store invariant `Valid()` and turns every exception of the Java service into a `Failed`/`Failure` value. The invariant says:

- the owner of every trip is one of its participants;
- every participant is a known user;
- every other participant sent a join request for that trip.

The views and the by-id lookup are functions over the store.

The model follows the code as written, including four behaviours that look unintended:

- a join request is stored as ACCEPTED at creation;
- accepting has no capacity check;
- a request can be replied to again after a reply;
- the "created trips" view selects by participant and status, not by `createdBy`.

Module `Scenarios` shows each of these with a sequence of service calls whose outcome is proved from the service's contracts. The code has no PENDING state at creation, no full-trip error, no guard against a second reply and no creator filter, so the model has none either.

Files:

- `domain.dfy` (module `Domain`): the entities, the errors, and the restriction list built from texts, with the append loop.
- `paging.dfy` (module `Paging`): the Spring paging formulas the envelope uses, and the envelope type.
- `queries.dfy` (module `TripQueries`): the repository's two finder queries as filters over the trip map.
- `trip_service.dfy` (module `Service`): the service class, its operations and the views.
- `scenarios.dfy` (module `Scenarios`): client call sequences and what they lead to.

## Model

| member | source | states |
|---|---|---|
| `Domain.AddRestrictions` | sharexe-server/src/main/java/com/ttcnpm/g36/sharexe/service/TripService.java:57 | The `forEach` loop that adds restrictions, used here and at line 147. It appends one restriction per text to the existing list, in order. The result is `existing + RestrictionsOf(texts)`, its length is the sum of both lengths, and position `|existing| + i` carries text `i`. |
| `Domain.RestrictionsOfAt` | sharexe-server/src/main/java/com/ttcnpm/g36/sharexe/service/TripService.java:57 | The restrictions built from a list of texts have exactly as many entries as the list, and entry `i` is `TripRestriction(texts[i])`. |
| `Domain.TextsOfRestrictionsOf` | sharexe-server/src/main/java/com/ttcnpm/g36/sharexe/service/TripService.java:57 | Reading the texts back from the built restrictions gives the original text list: same texts, same order, same length. |
| `Domain.RestrictionsOfTextsOf` | sharexe-server/src/main/java/com/ttcnpm/g36/sharexe/service/TripService.java:145-147 | Building restrictions from the texts of a restriction list gives that list back, so a list is determined by its texts. |
| `Domain.RestrictionsOfAppend` | sharexe-server/src/main/java/com/ttcnpm/g36/sharexe/service/TripService.java:57 | Appending texts one at a time gives the same list as building from the whole list (building distributes over concatenation). |
| `Service.EmptyTrip` | sharexe-server/src/main/java/com/ttcnpm/g36/sharexe/service/TripService.java:35 | `new Trip()` has no restrictions and no participants. |
| `Service.Populate` | sharexe-server/src/main/java/com/ttcnpm/g36/sharexe/service/TripService.java:47-58 | The trip gets the request's from/to, capacity, price, beginAt, endAt and description, and status WAITING. Its restrictions are the old list followed by one restriction per request text, in order. Id, owner and participants are untouched. |
| `Service.TripService.constructor` | sharexe-server/src/main/java/com/ttcnpm/g36/sharexe/service/TripService.java:28-32 | A service over the given users has empty trip and request repositories and satisfies the store invariant. |
| `Service.TripService.CreateNewTrip` | sharexe-server/src/main/java/com/ttcnpm/g36/sharexe/service/TripService.java:34-45 | An unknown caller fails with UserNotFound and stores nothing. Otherwise one trip is stored under a fresh id and no other trip changes. That trip is WAITING, `createdBy` is the caller, its participants are exactly {caller}, and route, capacity, price, beginAt, endAt and description are the request's. Its restrictions are one per request text, in order. The store invariant is kept. |
| `Service.TripService.CreateJoiningRequest` | sharexe-server/src/main/java/com/ttcnpm/g36/sharexe/service/TripService.java:60-72 | An unknown sender or receiver fails with UserNotFound and stores nothing. Otherwise exactly one request is added under a fresh id, with the given trip, sender and receiver and status ACCEPTED. Trips and all other requests are unchanged. |
| `Service.TripService.ReplyJoiningRequest` | sharexe-server/src/main/java/com/ttcnpm/g36/sharexe/service/TripService.java:74-92 | An unknown request fails with RequestNotFound. A caller other than the receiver fails with PermissionDenied. In both failures no request and no trip changes. Accept makes the request ACCEPTED, and the trip's participants become the old set plus the sender. Decline makes it DECLINED and leaves the trips unchanged. There is no capacity or previous-reply condition. |
| `Service.TripService.UpdateExistingTrip` | sharexe-server/src/main/java/com/ttcnpm/g36/sharexe/service/TripService.java:136-150 | An unknown trip fails with TripNotFound and changes nothing. Otherwise description, beginAt, endAt and price become the request's. The restrictions become one per request text, in order, with no old one kept. Owner, route, capacity, status and participants are kept, and all other trips are unchanged. |
| `Service.TripService.GetTripById` | sharexe-server/src/main/java/com/ttcnpm/g36/sharexe/service/TripService.java:152-159 | An unknown id fails with TripNotFound. A stored trip yields its projection. There is no check on the caller. |
| `Service.TripService.GetTripByIdIgnoresCaller` | sharexe-server/src/main/java/com/ttcnpm/g36/sharexe/service/TripService.java:152-158 | Two different callers get the same answer for the same id. |
| `Service.TripService.GetAllWaitingTrips` | sharexe-server/src/main/java/com/ttcnpm/g36/sharexe/service/TripService.java:94-99 | Every listed item is the projection of a stored WAITING trip, and every stored WAITING trip is listed. The item count and totalElements both equal the number of WAITING trips. Each value is listed exactly as often as there are WAITING trips projected to it, so two trips with the same projection give two items. |
| `Service.TripService.GetAllJoinedTrips` | sharexe-server/src/main/java/com/ttcnpm/g36/sharexe/service/TripService.java:101-111 | The listed items are exactly the projections of the FINISHED trips that have the caller among their participants, and the counts equal their number. Each value is listed exactly as often as there are such trips projected to it. An unknown caller fails with UserNotFound. Page arguments that `PageRequest.of` refuses fail with InvalidPageRequest. |
| `Service.TripService.GetAllCreateTrips` | sharexe-server/src/main/java/com/ttcnpm/g36/sharexe/service/TripService.java:113-121 | The listed items are exactly the projections of the WAITING trips that have the caller among their participants, whoever created them, and the counts equal their number. Each value is listed exactly as often as there are such trips projected to it. The error cases are those of the joined view. |
| `Service.TripService.ViewsIgnorePaging` | sharexe-server/src/main/java/com/ttcnpm/g36/sharexe/service/TripService.java:94-121 | The three views give the same result for any page and size. For the joined and created views, this holds for any page and size that `PageRequest.of` accepts. |
| `Service.GetMultiItemsResponse` | sharexe-server/src/main/java/com/ttcnpm/g36/sharexe/service/TripService.java:122-134 | The envelope holds the projection of every trip of the list, in order, whatever the page size. totalElements is the list length, and the page number and size are the defaults. totalPages is the least number of default-size pages that hold the list. `last` holds exactly when the list fits on one page. An empty list gives no items, 0 pages and `last`. |
| `Service.ViewContents` | sharexe-server/src/main/java/com/ttcnpm/g36/sharexe/service/TripService.java:123-133 | Wrapping a query's result in the envelope gives as many items as there are matching stored trips. Every item is the projection of a matching trip, and every matching trip's projection is listed. |
| `Service.ViewMultiplicity` | sharexe-server/src/main/java/com/ttcnpm/g36/sharexe/service/TripService.java:123-133 | In the envelope of a query's result, each value is listed exactly as many times as there are matching stored trips projected to it. Together with `ViewContents` this fixes the item list except for its order. |
| `Service.FindAllMultiplicity` | sharexe-server/src/main/java/com/ttcnpm/g36/sharexe/service/TripService.java:96 | By induction over the id range: projecting the finder's result lists each value once per matching trip in range that projects to it. |
| `Service.StatusViewContents` | sharexe-server/src/main/java/com/ttcnpm/g36/sharexe/service/TripService.java:96 | `ViewContents` and `ViewMultiplicity` for the status query, with its condition (given status) written out. |
| `Service.ParticipantViewContents` | sharexe-server/src/main/java/com/ttcnpm/g36/sharexe/service/TripService.java:105 | `ViewContents` and `ViewMultiplicity` for the participant-and-status query, with its condition (user among participants, given status) written out. |
| `TripQueries.FindAll` | sharexe-server/src/main/java/com/ttcnpm/g36/sharexe/service/TripService.java:96 | The repository finder: each listed trip is stored under its id and matches the query. Ids strictly ascend, so nothing is listed twice, and every matching stored trip in range is listed. |
| `TripQueries.FindAllCount` | sharexe-server/src/main/java/com/ttcnpm/g36/sharexe/service/TripService.java:105 | The finder lists exactly as many trips as there are matching ids in the range. |
| `TripQueries.MatchingInStep` | sharexe-server/src/main/java/com/ttcnpm/g36/sharexe/service/TripService.java:117 | The matching ids of a range are the lowest id (when it matches) plus the matching ids of the rest of the range. |
| `TripQueries.QueryCount` | sharexe-server/src/main/java/com/ttcnpm/g36/sharexe/service/TripService.java:96 | Over a range that holds every stored id, the finder lists one trip per matching stored trip. |
| `Paging.PageImpl` | sharexe-server/src/main/java/com/ttcnpm/g36/sharexe/service/TripService.java:124 | The page keeps the content and request. An empty list reports the given total. A first page whose given total is the content size reports that total. |
| `Paging.TotalPagesBounds` | sharexe-server/src/main/java/com/ttcnpm/g36/sharexe/service/TripService.java:127 | For a positive page size, totalPages is the least number of pages that hold all elements, and it is 0 exactly when there are none. |
| `Scenarios.WaitingTripsOfEmptyStore` | sharexe-server/src/main/java/com/ttcnpm/g36/sharexe/service/TripService.java:125-127 | On an empty store the waiting view has no items, totalElements 0, totalPages 0 and `last`, and no error. |
| `Scenarios.JoinRequestStartsAccepted` | sharexe-server/src/main/java/com/ttcnpm/g36/sharexe/service/TripService.java:69 | A new join request is already ACCEPTED before the owner replies, and its sender is not yet a participant. |
| `Scenarios.JoinAndAccept` | sharexe-server/src/main/java/com/ttcnpm/g36/sharexe/service/TripService.java:60-92 | The sender asks the trip's owner and the owner accepts. Afterwards the sender is among the participants and every other trip is unchanged. |
| `Scenarios.AcceptIgnoresCapacity` | sharexe-server/src/main/java/com/ttcnpm/g36/sharexe/service/TripService.java:84-86 | A trip with maxCapacity 2 owned by user 1 accepts users 2 and 3 and ends with participants {1, 2, 3}, more than its capacity. |
| `Scenarios.ReplyAfterReply` | sharexe-server/src/main/java/com/ttcnpm/g36/sharexe/service/TripService.java:84-89 | A request accepted and then declined is DECLINED, and its sender stays a participant. |
| `Scenarios.StrangerCannotReply` | sharexe-server/src/main/java/com/ttcnpm/g36/sharexe/service/TripService.java:80-82 | A reply from a user other than the receiver fails with PermissionDenied. The request stays as it was and the sender does not join. |
| `Scenarios.CreatedViewListsJoinedTrip` | sharexe-server/src/main/java/com/ttcnpm/g36/sharexe/service/TripService.java:117 | User 2 joins user 1's WAITING trip. User 2's "created trips" view then lists exactly that trip, whose creator is user 1. |
| `Scenarios.CreatedViewOfOneTrip` | sharexe-server/src/main/java/com/ttcnpm/g36/sharexe/service/TripService.java:113-121 | Take a store whose only trip is WAITING and has the caller among its participants. The caller's "created trips" view then lists exactly that trip's projection, whoever created the trip. |
| `Scenarios.EditThenRead` | sharexe-server/src/main/java/com/ttcnpm/g36/sharexe/service/TripService.java:140-147 | After an edit, reading the trip by id shows the new description, price and time window. Its restriction texts are exactly the new ones, none of the old ones are kept, and the route and capacity are unchanged. |

## Left out

- Other files: `AuthenticationController.java`, `Passenger.java`, `RoleRepository.java`, `LoginRequest.java` and the client's `HomePage.js` are not part of this model. They are login/signup plumbing, an unused entity, an interface without a body, a DTO and UI.
- Persistence:
  - `save` is an update of the map entry.
  - Generated ids are the counters `nextTripId`/`nextRequestId`.
  - Transactions, flushing and concurrent replies are not modelled.
  - In `replyJoiningRequest` only the request is saved. The model assumes the change to the managed trip entity is persisted too.
- `getOne`: a JPA lazy reference is modelled as a lookup that fails with UserNotFound (users) or RequestNotFound (requests) when the id is absent.
- Identity: the `UserPrincipal` of the security context is a caller id parameter.
- `ModelMapper.mapToTripResponse` is not part of this model. It is the function parameter `project`, so the views and `GetTripById` hold for every projection whose results hold no object references. `rs.map(...)` is the element-wise projection inside `GetMultiItemsResponse`.
- `Trip.java` is not part of this model:
  - `addParticipant` is insertion into a set of user ids.
  - `addRestriction` appends to a list.
  - `new Trip()` starts with no participants and no restrictions; its other fields are unspecified until set.
  - `TripStatus` is reduced to the two constants the service uses, WAITING and FINISHED.
- Price and timestamps are abstract types that the model copies and never inspects. Nothing in `TripService` checks that beginAt precedes endAt, and the model does not either.
- Service.TripService.CreateJoiningRequest: the Java method receives a `Trip` entity. The model takes its id and requires it to be a stored trip, so passing a transient trip is not modelled. It also does not check that the receiver is the trip's owner, because `TripService` does not.
- Repository order: `findAllByStatus` and `findAllByParticipantsAndStatus` return trips in an order `TripService` does not fix. The model lists them by ascending id.
- Paging:
  - The totalPages/isLast arithmetic and the total adjustment of `PageImpl` follow Spring Data 2.x. This is an assumption about library code that is not shown.
  - `AppConstants.DEFAULT_PAGE_NUMBER` is assumed to be "0".
  - `PagedListHolder.DEFAULT_PAGE_SIZE` is Spring's 10.
  - `PageRequest.of(page, size)` in the joined and created views throws Spring's IllegalArgumentException for a negative page or a size below one. The model reports this as InvalidPageRequest.
  - The `(int)` cast of totalPages is not modelled as wrapping (no list of 2^31 pages).
- Java `Long`/`Integer` ids and capacities are unbounded `nat`/`int`. The service does no arithmetic on them.
