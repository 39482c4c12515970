# qcar-i dispatch core in Dafny

A model of the client-side dispatch logic of the qcar-i ride-hailing app (Swift, SwiftUI, Supabase). Passengers create ride orders. Drivers go online, see nearby open orders, accept one and move it along its lifecycle. Both sides watch the order's status and the driver's location trail.

The model covers these parts of the client:

- **Order lifecycle.** The six `OrderStatus` cases, the forward step `nextStatus`, `isFinal`, the driver's active/history split, the guards of `advanceStatus`, the per-status buttons of the driver's current-order screen, and the passenger's progress bar.
- **Entities.** `Order`, `Driver` and `LocationPoint`, with their default initialisers, hand-written `==`, and hand-written `Codable` encoders and decoders. Codable is modelled on a keyed container (a map from key to typed value) with Swift's `DecodingError` cases.
- **Repositories.**
  - Row-to-entity mapping: the status fallback to `requested`, and a dropoff only when both columns are present.
  - The payloads sent to the server.
  - The authorisation guards.
  - The table queries (`eq` / `not in` / `order` / `limit`), modelled as filter, sort and take over a sequence of rows.
- **View models.** `DriverHomeVM`, `PassengerHomeVM`, `TrackingVM` and the auth repository's `currentUser`. Each action is a step function from a state record to a new state record, plus the repository calls it issues.
- **Errors.** The prefix-style texts of `qcarError.errorDescription`.

Server RPCs are opaque: their replies are parameters (`Ok(v)` or `Err(e)`). A Swift `Error` other than `qcarError` is carried as `Underlying(description)`.

Modules, one per source area:

| module | file |
|---|---|
| `Wrappers` | wrappers.dfy |
| `Seqs` | seqs.dfy |
| `Errors` | errors.dfy |
| `OrderStatuses` | order_status.dfy |
| `Entities` | entities.dfy |
| `Coding` | coding.dfy |
| `EntityCoding` | entity_coding.dfy |
| `OrderRepository` | order_repository.dfy |
| `DriverOrderQueries` | driver_order_queries.dfy |
| `DriverRepository` | driver_repository.dfy |
| `TrackingRepository` | tracking_repository.dfy |
| `AuthRepository` | auth_repository.dfy |
| `TrackingVM` | tracking_vm.dfy |
| `DriverCurrentOrderView` | driver_current_order_view.dfy |
| `PassengerTrackingSections` | passenger_tracking_sections.dfy |
| `DriverHomeVM` | driver_home_vm.dfy |
| `PassengerHomeVM` | passenger_home_vm.dfy |

## Model

| member | source | states |
|---|---|---|
| OrderStatuses.AllCasesEnumerates | Domain/Entities/OrderStatus.swift:3-9 | `allCases` has exactly six statuses, each listed once, and every status is among them |
| OrderStatuses.FromRawValue | Domain/Entities/OrderStatus.swift:3-9 | `OrderStatus(rawValue:)` returns a status only if that status's raw value is the input; it returns nil only when no status has that raw value |
| OrderStatuses.RawValueRoundTrip | Domain/Entities/OrderStatus.swift:3-9 | parsing a status's raw value gives the same status back |
| OrderStatuses.RawValueInjective | Domain/Entities/OrderStatus.swift:4-9 | two statuses share a raw value only if they are the same status |
| OrderStatuses.DisplayTextInjective | Domain/Entities/OrderStatus.swift:11-20 | `displayText` is total, and the six texts are pairwise distinct |
| Errors.Description | Data/Supabase/Data/Supabase/qcarError.swift:11-26 | `notAuthenticated` is "未登录" and `decodeFailed` is "数据解析失败"; `forbidden`, `invalidState` and `notFound` are their fixed prefix followed by the message; `underlying` is the wrapped error's own text |
| Errors.DescriptionRoundTrip | Data/Supabase/Data/Supabase/qcarError.swift:11-22 | every app error other than `underlying` can be read back from its text |
| Errors.DescriptionInjective | Data/Supabase/Data/Supabase/qcarError.swift:11-22 | two app errors other than `underlying` with the same text are the same error |
| TrackingVM.NextStatus | Features/Tracking/ViewModels/TrackingVM.swift:136-145 | each chain status steps to the next one on the chain requested→accepted→arrived→started→completed; completed and cancelled map to themselves; cancelled is never produced from another status |
| TrackingVM.FinalIffFixpoint | Features/Tracking/ViewModels/TrackingVM.swift:136-190 | `isFinal(s)` holds exactly when `nextStatus(s) == s` |
| TrackingVM.AdvanceReachesCompleted | Features/Tracking/ViewModels/TrackingVM.swift:136-145 | iterating `nextStatus` from any non-cancelled status never yields cancelled, and reaches completed within at most four steps |
| TrackingVM.RoleOf | Features/Tracking/ViewModels/TrackingVM.swift:45-47 | the role is the signed-in user's role, or passenger when nobody is signed in |
| TrackingVM.AdvanceStatus | Features/Tracking/ViewModels/TrackingVM.swift:115-133 | a non-driver only gets the error "乘客端不支持推进状态"; with no order or a final one nothing happens; otherwise exactly `nextStatus(current)` is requested; success replaces `currentOrder`, failure only sets the error |
| TrackingVM.AdvanceRequestsChainSuccessor | Features/Tracking/ViewModels/TrackingVM.swift:126-129 | the status sent to the server parses back, is never cancelled, and is one step closer to completed than the current status |
| TrackingVM.DriverActiveOrders | Features/Tracking/ViewModels/TrackingVM.swift:180-182 | keeps exactly the non-final orders, in their original order |
| TrackingVM.DriverHistoryOrders | Features/Tracking/ViewModels/TrackingVM.swift:184-186 | keeps exactly the final orders, in their original order |
| TrackingVM.ActiveHistoryPartition | Features/Tracking/ViewModels/TrackingVM.swift:180-190 | the active and history lists are disjoint, and together they hold every driver order as many times as it occurs |
| TrackingVM.LoadLatestPassengerOrder | Features/Tracking/ViewModels/TrackingVM.swift:77-85 | with no user nothing changes; success sets `currentOrder` to the first order of the list, or nil; failure only sets the error |
| TrackingVM.LatestPassengerOrderIsNewest | Features/Tracking/ViewModels/TrackingVM.swift:77-85 | loaded from the orders table, the current order belongs to the passenger and none of theirs is newer; it is nil only when the passenger has no order |
| TrackingVM.LoadPointsIfNeeded | Features/Tracking/ViewModels/TrackingVM.swift:87-94 | with no current order nothing changes; success replaces `points`; failure only sets the error |
| TrackingVM.LoadedPointsAreTheTrail | Features/Tracking/ViewModels/TrackingVM.swift:87-94 | loaded from the trail table, the points are exactly the current order's trail, oldest first |
| TrackingVM.LoadDriverOrders | Features/Tracking/ViewModels/TrackingVM.swift:97-111 | with no driver id nothing changes; success replaces `driverOrders`; failure empties it and sets the error |
| TrackingVM.LoadedDriverOrdersAreOwn | Features/Tracking/ViewModels/TrackingVM.swift:97-111 | loaded from the orders table, the list is the driver's newest orders: at most 100, all their own, none of theirs left out is newer than one shown, none left out while fewer than 100 are shown, and its active part holds no finished order |
| DriverCurrentOrderView.EnabledIffNextStep | Features/Driver/Views/DriverCurrentOrderView.swift:36-60 | a button is enabled exactly when its target status is the `nextStatus` of a status past requested that is not final: "arrived" in accepted, "started" in arrived, "completed" in started |
| DriverCurrentOrderView.AtMostOneEnabled | Features/Driver/Views/DriverCurrentOrderView.swift:36-60 | at most one button is enabled in any status, and none in requested, completed or cancelled |
| DriverCurrentOrderView.Update | Features/Driver/Views/DriverCurrentOrderView.swift:74-87 | the requested status is the button's target; success replaces the order, and only for completed it notifies `onCompleted` and dismisses; failure changes only the error |
| DriverCurrentOrderView.EnabledButtonAdvances | Features/Driver/Views/DriverCurrentOrderView.swift:36-87 | pressing the enabled button sends the same request as the tracking screen's advance, the chain successor of the current status; on success both screens hold the returned order, and `onCompleted` runs exactly when a started trip succeeds in completing |
| DriverCurrentOrderView.ReturnedRowCarriesRequestedStatus | Features/Driver/Views/DriverCurrentOrderView.swift:74-87 | fed the row `set_order_status` returns, the screen shows that row's order, with exactly the requested status when the server stored the status sent; the tracking screen's advance shows the same order |
| PassengerTrackingSections.PassengerHintInjective | Features/Tracking/Views/PassengerTrackingSections.swift:69-84 | there is a hint for each of the six statuses, and no two statuses share a hint |
| PassengerTrackingSections.StepIndex | Features/Tracking/Views/PassengerTrackingSections.swift:87-88 | the index is a chain status's position on the bar, and 0 for a status not on it |
| PassengerTrackingSections.ProgressStepsShape | Features/Tracking/Views/PassengerTrackingSections.swift:87-88 | the bar has five steps, only cancelled is missing from it, and cancelled shows as step 0 |
| PassengerTrackingSections.Segments | Features/Tracking/Views/PassengerTrackingSections.swift:91-94 | segment i is lit exactly when i ≤ the step index |
| PassengerTrackingSections.LitCountIsIndexPlusOne | Features/Tracking/Views/PassengerTrackingSections.swift:88-94 | the bar lights exactly index + 1 segments |
| PassengerTrackingSections.AdvanceLightsOneMore | Features/Tracking/Views/PassengerTrackingSections.swift:87-94 | one step along the chain lights exactly one more segment |
| Entities.NewOrderDefaults | Domain/Entities/Order.swift:15-31 | a freshly built order has no driver and no dropoff, and its status is requested |
| Entities.OrderEqualsIsFieldwise | Domain/Entities/Order.swift:88-98 | the hand-written `==` holds exactly when all seven fields are equal |
| Entities.NewDriverDefaults | Domain/Entities/Driver.swift:10-20 | a freshly built driver is offline |
| Entities.DriverEqualsIsFieldwise | Domain/Entities/Driver.swift:49-55 | `==` holds exactly when id, name, isOnline and location are equal |
| Entities.LocationPointEqualsIsFieldwise | Domain/Entities/LocationPoint.swift:52-59 | `==` holds exactly when all five fields are equal |
| Coding.DecodeIdIfPresent | Domain/Entities/Order.swift:43 | `decodeIfPresent` gives nil exactly when the key is absent or null |
| Coding.DecodeNumberDict | Domain/Entities/Order.swift:48 | decoding `[String: Double]` succeeds exactly on a dictionary of numbers; a missing key is `keyNotFound` |
| EntityCoding.CoordinateOf | Domain/Entities/Order.swift:48-52 | a missing latitude or longitude in the dictionary reads as 0 |
| EntityCoding.DecodeStatus | Domain/Entities/Order.swift:44 | a status decodes exactly from a string that is one of the six raw values |
| EntityCoding.EncodeOrder | Domain/Entities/Order.swift:64-84 | the encoded keys are id, passengerId, status, createdAt and pickup, plus driverId and dropoff exactly when present |
| EntityCoding.DecodeOrder | Domain/Entities/Order.swift:39-62 | a decoded order's driverId and dropoff are nil exactly when their keys are absent or null; a missing id fails with `keyNotFound("id")` |
| EntityCoding.OrderRoundTrip | Domain/Entities/Order.swift:39-84 | decoding an encoded order yields the same order |
| EntityCoding.EncodeDriver | Domain/Entities/Driver.swift:24-45 | the encoded keys are exactly id, name, isOnline, latitude and longitude |
| EntityCoding.DriverRoundTrip | Domain/Entities/Driver.swift:28-45 | decoding an encoded driver yields the same driver |
| EntityCoding.DriverMissingKeyFails | Domain/Entities/Driver.swift:28-36 | removing any one key from an encoded driver makes decoding fail |
| EntityCoding.EncodeLocationPoint | Domain/Entities/LocationPoint.swift:26-49 | the encoded keys are exactly id, orderId, driverId, latitude, longitude and recordedAt |
| EntityCoding.LocationPointRoundTrip | Domain/Entities/LocationPoint.swift:30-49 | decoding an encoded point yields the same point |
| EntityCoding.LocationPointMissingKeyFails | Domain/Entities/LocationPoint.swift:30-39 | removing any one key from an encoded point makes decoding fail; there are no defaults |
| OrderRepository.MapOrder | Data/RepositoriesImpl/SupabaseOrderRepositoryImpl.swift:117-130 | id, passengerId, driverId and createdAt are copied unchanged; a dropoff exists exactly when both columns do; an unknown status string becomes requested |
| OrderRepository.CreatePayload | Data/RepositoriesImpl/SupabaseOrderRepositoryImpl.swift:22-29 | the payload's status is always "requested", and its dropoff fields are nil exactly when no dropoff is given |
| OrderRepository.CreateOrder | Data/RepositoriesImpl/SupabaseOrderRepositoryImpl.swift:31-39 | an empty insert reply fails with `decodeFailed`; otherwise the first returned row is mapped |
| OrderRepository.CreateOrderRoundTrip | Data/RepositoriesImpl/SupabaseOrderRepositoryImpl.swift:12-40 | creating an order and reading back the inserted row gives an unassigned requested order with the passenger, pickup and dropoff that were sent |
| OrderRepository.GetPassengerOrders | Data/RepositoriesImpl/SupabaseOrderRepositoryImpl.swift:42-52 | the result is the mapping, row by row, of the passenger's rows, each as often as in the table and none other, newest first; so every order of the passenger is returned and only theirs |
| OrderRepository.NearbyParamsFor | Data/RepositoriesImpl/SupabaseOrderRepositoryImpl.swift:56-61 | the nearby search always uses a 5 km radius and a limit of 50 around the given point |
| OrderRepository.GetNearbyOpenOrders | Data/RepositoriesImpl/SupabaseOrderRepositoryImpl.swift:65-78 | one order per row, in row order, and none has a driver |
| OrderRepository.NearbyOrdersAreUnassignedRecords | Data/RepositoriesImpl/SupabaseOrderRepositoryImpl.swift:65-78 | a nearby row reads as the same order the table mapping gives for that row with no driver; the reported distance plays no part |
| OrderRepository.AcceptIgnoresDriverArgument | Data/RepositoriesImpl/SupabaseOrderRepositoryImpl.swift:81-89 | the driver argument of `acceptOrder` does not change what is sent |
| OrderRepository.StatusUpdateFor | Data/RepositoriesImpl/SupabaseOrderRepositoryImpl.swift:91-101 | the status is sent as a raw value that parses back to the same status |
| OrderRepository.MapReply | Data/RepositoriesImpl/SupabaseOrderRepositoryImpl.swift:81-101 | `acceptOrder` and `updateStatus` return the mapping of the row the RPC returns, with its id; an RPC error is passed through unchanged |
| OrderRepository.GetOrder | Data/RepositoriesImpl/SupabaseOrderRepositoryImpl.swift:103-113 | nil exactly when no row has the id; otherwise the mapping of a row with that id |
| DriverOrderQueries.OpenRawMapsToOpenStatus | Data/RepositoriesImpl/SupabaseOrderRepositoryImpl+DriverCurrent.swift:11-26 | a row whose raw status is neither "completed" nor "cancelled" never maps to a finished status |
| DriverOrderQueries.GetMyActiveDriverOrders | Data/RepositoriesImpl/SupabaseOrderRepositoryImpl+DriverCurrent.swift:6-30 | the result is the mapping, row by row, of exactly the driver's unfinished rows, each as often as in the table; so every result is assigned to the driver and unfinished, results are newest first, and every unfinished row of the driver is returned |
| DriverOrderQueries.SelectDriverRows | Data/RepositoriesImpl/SupabaseOrderRepositoryImpl+DriverOrders.swift:13-20 | at most `limit` of the driver's rows, newest first; no row cut off by the limit is newer than a kept one; nothing is cut off while the limit leaves room |
| DriverOrderQueries.GetMyDriverOrders | Data/RepositoriesImpl/SupabaseOrderRepositoryImpl+DriverOrders.swift:8-36 | the result is the mapping, row by row, of the rows the limited query keeps: at most `limit` orders (100 by default), all the driver's, newest first |
| DriverOrderQueries.HistoryIsNewest | Data/RepositoriesImpl/SupabaseOrderRepositoryImpl+DriverOrders.swift:8-36 | the history is the driver's newest orders: none of theirs left out is newer than one returned, and none is left out while the limit leaves room |
| DriverOrderQueries.HistoryIncludesFinished | Data/RepositoriesImpl/SupabaseOrderRepositoryImpl+DriverOrders.swift:7-18 | within the limit, every order of the driver is returned whatever its status, finished ones included |
| DriverRepository.GetOnlineDrivers | Data/RepositoriesImpl/SupabaseDriverRepositoryImpl.swift:23-31 | the located rows' drivers are returned, and nothing else; a missing name becomes "司机" |
| DriverRepository.GetOnlineDriversConcat | Data/RepositoriesImpl/SupabaseDriverRepositoryImpl.swift:23-31 | the filter works row by row, so the kept drivers stay in row order |
| DriverRepository.UpsertParamsFor | Data/RepositoriesImpl/SupabaseDriverRepositoryImpl.swift:78-92 | a missing coordinate is sent as (0, 0) |
| DriverRepository.UpsertedDriver | Data/RepositoriesImpl/SupabaseDriverRepositoryImpl.swift:99-107 | the returned location uses each stored component where present and falls back to the sent one; the name is "我" |
| DriverRepository.SetOnline | Data/RepositoriesImpl/SupabaseDriverRepositoryImpl.swift:34-42 | refused with `forbidden("只能更新自己的司机状态")` exactly when the driver is not the session user; otherwise sends (online, 0, 0) |
| DriverRepository.UpdateLocation | Data/RepositoriesImpl/SupabaseDriverRepositoryImpl.swift:44-51 | refused with `forbidden("只能更新自己的位置")` exactly when the driver is not the session user; otherwise sends online with the coordinate |
| DriverRepository.UpdateLocationEcho | Data/RepositoriesImpl/SupabaseDriverRepositoryImpl.swift:44-107 | when the stored record echoes the sent coordinate, the caller gets back an online driver at that coordinate |
| DriverRepository.GetDriver | Data/RepositoriesImpl/SupabaseDriverRepositoryImpl.swift:53-74 | nil exactly when no record has the id; otherwise named "司机", and placed at (0, 0) when the record lacks a coordinate |
| TrackingRepository.AppendSendsOnlyOrderAndCoordinate | Data/RepositoriesImpl/SupabaseTrackingRepositoryImpl.swift:12-29 | only the order id and the coordinate are sent; points that differ in id, driver or time send the same parameters |
| TrackingRepository.GetPoints | Data/RepositoriesImpl/SupabaseTrackingRepositoryImpl.swift:31-58 | exactly the order's points, oldest first, each row copied field by field |
| AuthRepository.RoleOf | Data/RepositoriesImpl/SupabaseAuthRepositoryImpl.swift:58 | "driver" maps to the driver role, and every other string to passenger |
| AuthRepository.SignInAsPassenger | Data/RepositoriesImpl/SupabaseAuthRepositoryImpl.swift:13-17 | `signInAsPassenger` is `loadCurrentProfile` forcing the role "passenger": with a session it upserts "passenger" for the session user |
| AuthRepository.SignInAsDriver | Data/RepositoriesImpl/SupabaseAuthRepositoryImpl.swift:19-21 | `signInAsDriver` is `loadCurrentProfile` forcing the role "driver": with a session it upserts "driver" for the session user |
| AuthRepository.LoadCurrentProfile | Data/RepositoriesImpl/SupabaseAuthRepositoryImpl.swift:30-64 | with no session it fails with `notAuthenticated` and sends nothing; with no profile row it fails with `notFound("profile")`; a failure leaves `currentUser` unchanged; success sets `currentUser` to the session user's profile |
| AuthRepository.ApplyUpsert | Data/RepositoriesImpl/SupabaseAuthRepositoryImpl.swift:35-42 | the upsert gives the caller's row the forced role and keeps its name and phone; a bare row is added only when the caller has none; no other row is touched |
| AuthRepository.SignInGetsForcedRole | Data/RepositoriesImpl/SupabaseAuthRepositoryImpl.swift:13-63 | after the upsert, signing in as passenger or driver yields a profile with that role |
| AuthRepository.SignOut | Data/RepositoriesImpl/SupabaseAuthRepositoryImpl.swift:23-26 | `currentUser` is cleared whatever the swallowed SDK call did; the session is whatever the SDK leaves |
| AuthRepository.SignedOutCannotSignIn | Data/RepositoriesImpl/SupabaseAuthRepositoryImpl.swift:23-33 | after a sign-out that leaves no session, a sign-in sends nothing and fails `notAuthenticated`; if the SDK still holds a session, a sign-in upserts for that user |
| DriverHomeVM.EnsureDriverSession | Features/Driver/ViewModels/DriverHomeVM.swift:64-72 | it signs in as a driver only when nobody is signed in; a failure only sets the error |
| DriverHomeVM.DriverSessionSignsInOnce | Features/Driver/ViewModels/DriverHomeVM.swift:64-72 | with nobody signed in it asks the auth repository to sign in as a driver; after a success the next call asks nothing; with no session the error shown is "未登录" |
| DriverHomeVM.RefreshNearbyOrders | Features/Driver/ViewModels/DriverHomeVM.swift:113-128 | nothing happens when offline or without a coordinate; failure empties the list; the loading flag always ends false |
| DriverHomeVM.ToggleOnline | Features/Driver/ViewModels/DriverHomeVM.swift:80-111 | with nobody signed in only the error "请先登录" is set; the negation of `isOnline` is requested; a failed `setOnline` changes only the error; otherwise `isOnline` follows its reply, a known coordinate is written next, and `me` is the `setOnline` reply when none is known; when no coordinate is known or its write succeeds, ending offline stops the heartbeat and empties the list and ending online starts the heartbeat; when a known coordinate's write fails, only `isOnline` and the error change, after exactly the `setOnline` and `updateLocation` calls |
| DriverHomeVM.ToggleKeepsSettledUnlessLocateFails | Features/Driver/ViewModels/DriverHomeVM.swift:80-111 | from a settled state (offline means heartbeat stopped and list empty), `toggleOnline` ends settled on every path except going offline with a coordinate known and a failing location write |
| DriverHomeVM.OfflineToggleLeavesStaleList | Features/Driver/ViewModels/DriverHomeVM.swift:92-107 | as written, that path leaves the driver offline with the heartbeat flagged running and the old nearby list still shown |
| DriverHomeVM.OfflineToggleReportsOnline | Features/Driver/ViewModels/DriverHomeVM.swift:86-99 | as written, going offline with a coordinate known sends `setOnline(false)` and then a location write, and that write upserts the driver as online |
| DriverHomeVM.OnlineToggleSkipsHeartbeat | Features/Driver/ViewModels/DriverHomeVM.swift:92-108 | as written, going online with a known coordinate whose write fails leaves the driver online with no heartbeat and no nearby refresh, after exactly the two writes, and still settled; the corrected toggle runs the heartbeat on the same input |
| DriverHomeVM.ToggleOnlineGuarded | Features/Driver/ViewModels/DriverHomeVM.swift:80-111 | the corrected toggle: no location write unless the driver ends online; after a successful `setOnline` the heartbeat runs exactly when online; going offline empties the list; a settled state stays settled; where the source completes normally ending online it behaves identically |
| DriverHomeVM.Accept | Features/Driver/ViewModels/DriverHomeVM.swift:130-142 | success removes exactly the entries with the accepted id, keeps every other entry as many times as before and in order, opens the accepted order, and changes nothing else; failure changes only the error |
| DriverHomeVM.AcceptedRowOpens | Features/Driver/ViewModels/DriverHomeVM.swift:130-142 | fed the row `accept_order` returns, `accept` opens that row's order and no nearby entry with its id remains; an RPC error only shows its text |
| DriverHomeVM.StepsKeepSettled | Features/Driver/ViewModels/DriverHomeVM.swift:113-142 | the initial state is settled, and refreshing, accepting, loading the current order and the session check all keep the state settled |
| DriverHomeVM.HeartbeatTick | Features/Driver/ViewModels/DriverHomeVM.swift:152-158 | an iteration exits exactly when offline or with no driver id, and writes a location exactly when a coordinate is known |
| DriverHomeVM.HeartbeatStopsWhenOffline | Features/Driver/ViewModels/DriverHomeVM.swift:152-162 | once the loop sees the driver offline, no later tick writes anything |
| DriverHomeVM.HeartbeatWritesAreLocations | Features/Driver/ViewModels/DriverHomeVM.swift:152-158 | every heartbeat write is a location report of the signed-in driver, made while online, with the coordinate then known |
| DriverHomeVM.LoadMyCurrentOrderIfAny | Features/Driver/ViewModels/DriverHomeVM.swift:196-210 | success sets `currentOrder` to the first active order, or nil; failure clears it and sets the error |
| DriverHomeVM.CurrentOrderIsNewestActive | Features/Driver/ViewModels/DriverHomeVM.swift:196-210 | loaded from the orders table, the current order is the driver's own and unfinished, and no unfinished order of theirs is newer |
| PassengerHomeVM.EvaluateTrackingSuggestion | Features/Passenger/ViewModels/PassengerHomeVM.swift:178-197 | the suggestion fires only for an arrived or started latest order not yet suggested in that status; firing remembers (id, status), shows it, and titles it "司机已到达" or "行程进行中"; otherwise nothing changes |
| PassengerHomeVM.SuggestionNotRepeated | Features/Passenger/ViewModels/PassengerHomeVM.swift:186-192 | evaluating again, even after the suggestion was dismissed, raises nothing for the same order and status |
| PassengerHomeVM.NewStatusSuggestsAgain | Features/Passenger/ViewModels/PassengerHomeVM.swift:182-192 | the same order reaching the other suggestible status is suggested again |
| PassengerHomeVM.DemoDropoff | Features/Passenger/ViewModels/PassengerHomeVM.swift:130-134 | the demo destination lies 0.01 degrees south and 0.01 degrees west of the pickup |
| PassengerHomeVM.Recenter | Features/Passenger/ViewModels/PassengerHomeVM.swift:64-67 | the map centre becomes the device coordinate when known, and nothing else changes |
| PassengerHomeVM.RecenterIdempotent | Features/Passenger/ViewModels/PassengerHomeVM.swift:64-67 | recentring twice on the same coordinate is recentring once, and with no coordinate known the map stays put |
| PassengerHomeVM.EnsurePassengerSession | Features/Passenger/ViewModels/PassengerHomeVM.swift:82-90 | it signs in as a passenger only when nobody is signed in; a failure only sets the error |
| PassengerHomeVM.PassengerSessionSignsInOnce | Features/Passenger/ViewModels/PassengerHomeVM.swift:82-90 | with nobody signed in it asks the auth repository to sign in as a passenger; after a success the next call asks nothing; with no session the error shown is "未登录" |
| PassengerHomeVM.RefreshDrivers | Features/Passenger/ViewModels/PassengerHomeVM.swift:94-105 | the drivers are asked for around the device coordinate, or else the map centre; failure empties the list and sets the error; the loading flag always ends false |
| PassengerHomeVM.RefreshedDriversAreTheLocatedRows | Features/Passenger/ViewModels/PassengerHomeVM.swift:94-105 | refreshed from the nearby-drivers RPC, the map shows the driver of every located row and nothing else, and no other field moves but the loading flag |
| PassengerHomeVM.LoadLatestOrder | Features/Passenger/ViewModels/PassengerHomeVM.swift:107-116 | with no user nothing happens; success sets `latestOrder` to the first order, or nil, and re-evaluates the suggestion; failure only sets the error |
| PassengerHomeVM.LatestOrderIsNewest | Features/Passenger/ViewModels/PassengerHomeVM.swift:107-116 | loaded from the orders table, the latest order is the passenger's newest, and an unsuggested arrived or started order raises the suggestion |
| PassengerHomeVM.CreateOrderDemo | Features/Passenger/ViewModels/PassengerHomeVM.swift:121-145 | with no user it sets "请先登录" and leaves `latestOrder` unchanged; otherwise it creates the order at the device coordinate, or else the map centre; success sets `latestOrder`, failure only sets the error, and either way the creating flag ends false |
| PassengerHomeVM.DemoOrderIsRequestedAtPickup | Features/Passenger/ViewModels/PassengerHomeVM.swift:121-145 | when the store inserts the demo order, `latestOrder` becomes a fresh unassigned requested order of the passenger, with the inserted id and time, picked up at the device coordinate or the map centre, bound for the demo destination |
| Seqs.Filter | Features/Tracking/ViewModels/TrackingVM.swift:180-186 | the kept elements are exactly those satisfying the predicate, each as often as in the input, in input order (the shared filter under `compactMap`, `filter` and `removeAll`) |
| Seqs.SelectTop | Data/RepositoriesImpl/SupabaseOrderRepositoryImpl+DriverOrders.swift:13-20 | `eq` + `order` + `limit`: at most `limit` matching rows, sorted, and no cut-off matching row ranks before a kept one |

## Left out

- Server RPCs (`accept_order`, `set_order_status`, `list_nearby_open_orders`, `list_nearby_online_drivers`, `upsert_my_driver_state`, `append_my_order_location`): their SQL is not part of this model. Their replies are parameters. There is no arbiter for concurrent accepts and no geo-matching.
- Cancellation: no client code moves an order to cancelled. The model adds no such edge.
- Distance arithmetic (`SimpleRoutePlanner`, the `distance_km` columns): floating-point geometry, not used by the client logic.
- PassengerHomeVM.DemoDropoff: computed on exact reals. Double rounding of `pickup - 0.01` is not modelled.
- Coordinates are pairs of reals. NaN and the IEEE `==` it breaks are not modelled.
- Concurrency is not modelled. This covers the realtime change streams, `startRealtime`/`stopRealtime`, Task creation and cancellation, `deinit`, `onAppear`/`onDisappear` ordering, and the 3-second heartbeat sleep. Each action is one sequential step whose awaited replies are inputs.
- DriverHomeVM.RefreshNearbyOrders: the `if !isOnline` re-check after the await is kept, but it cannot fire within one sequential step. Its purpose is to catch interleaving with `toggleOnline`.
- DriverHomeVM.HeartbeatTick: `Task.isCancelled` is not modelled. Cancellation is represented by the loop leaving on offline.
- TrackingVM.LoadDriverOrders and DriverHomeVM.LoadMyCurrentOrderIfAny: only the branch where the repository is `SupabaseOrderRepositoryImpl` is modelled. The failed-downcast branch (`driverOrders = []` / `currentOrder = nil`) is not.
- `loadByRole` and the `selectedDriverOrder` property of `TrackingVM`: dispatch by role over the modelled loaders, and a navigation selection written and read only by the tracking view, with no logic to model.
- Session/role routing (`SessionStore`, `RootView`, `MainTabView`): that code is inconsistent with itself and is not part of this model.
- UI and platform plumbing (CoreLocation, MapKit, SwiftUI layout, auth screens, dependency wiring): no logic to state.
- `qcarError.underlying`: the wrapped error's `localizedDescription` is an opaque string.
- Codable is modelled at the keyed-container level. The JSON text and the UUID/Date string formats are not part of this model.
- Sort ties: rows with equal `created_at` or `recorded_at` come back in an order the server does not promise. The model promises sortedness and membership, not a tie order.
- DriverOrderQueries.GetMyDriverOrders: `limit` is a `nat`. A negative Swift `Int` limit is not modelled.
- `getOnlineDrivers` and `getNearbyOpenOrders`: the RPC's radius and limit are enforced server-side. The model maps whatever rows come back.
- AuthRepository.SignOut: what the auth SDK's `signOut` does to its own session, on success or on the error that is swallowed, is not in the source; the session afterwards is an input, and nothing is promised about it.
- DriverHomeVM.Settled: `heartbeatRunning` stands for the stored heartbeat task. On the failing path the loop itself still exits at its next check, by DriverHomeVM.HeartbeatStopsWhenOffline; the stored handle and the nearby list are what stay stale.

## Findings

| source | as written | input that shows it | evidently intended | confidence | as-written member | corrected member |
|---|---|---|---|---|---|---|
| Features/Driver/ViewModels/DriverHomeVM.swift:94-99 | going offline, `toggleOnline` still sends the follow-up `updateLocation`, and `updateLocation` always upserts `is_online = true` (Data/RepositoriesImpl/SupabaseDriverRepositoryImpl.swift:49), so the server ends with the driver online while the screen shows offline | a signed-in online driver with a known coordinate goes offline, and `setOnline(false)` succeeds | the location write happens only when the driver ends online | not executed; high | DriverHomeVM.OfflineToggleReportsOnline | DriverHomeVM.ToggleOnlineGuarded |
| Features/Driver/ViewModels/DriverHomeVM.swift:92-107 | `isOnline` is set before the location write; when that write throws, the `catch` skips `stopHeartbeat()` and `nearbyOrders = []` | an online driver with nearby orders and a known coordinate goes offline; `setOnline(false)` succeeds and `updateLocation` throws | going offline always stops the heartbeat and empties the nearby list | not executed; medium | DriverHomeVM.OfflineToggleLeavesStaleList | DriverHomeVM.ToggleOnlineGuarded |
| Features/Driver/ViewModels/DriverHomeVM.swift:92-108 | going online, `isOnline` is set before the location write; when that write throws, the `catch` skips `startHeartbeat()` and `refreshNearbyOrders()`, so the driver is online with no location heartbeat, although a failed location write is meant to be retried on the next tick rather than end the session | an offline driver with a known coordinate goes online; `setOnline(true)` succeeds and `updateLocation` throws | an online driver always runs the heartbeat, and a failed location write is only reported | not executed; medium | DriverHomeVM.OnlineToggleSkipsHeartbeat | DriverHomeVM.ToggleOnlineGuarded |
