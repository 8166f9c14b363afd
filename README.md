# Commercial space leasing: the client-side rules

This project models the rules that the React front end of the commercial space leasing system applies on its own. It does not model what the server decides. The modelled parts are:

- the contracts list: the filter panel and its sort options, the reset button, the update after a termination, and who is offered Renew or Terminate;
- the spaces list: the role-restricted view, the price, area, location, type and availability filters, the sorts, the reset, and the location choices;
- signing a rental contract: the price summary, the end date that `Date.setMonth` derives, the three submit guards and the contract record that is sent;
- the notification client: the STOMP subscription table, filled by role on connect and emptied on disconnect, and the ten-entry, newest-first notification list;
- the buildings list: the search and sorts, the list updates after create, update and delete, and the coercion of the form inputs;
- the new-space form: its defaults, the field and amenity handlers, the payload and who may use it;
- the space details page: flat and dotted form updates, and who may edit or rent;
- the map: the type and availability filters, which spaces get a marker, and the icon each one uses;
- the HTTP helper: which service an endpoint goes to, and the bearer header.

The model takes the form of the code it follows:

- React component state becomes a `class` whose fields are the `useState` variables. Each handler that calls setters becomes a `method` that assigns those fields.
- Each `Array.prototype.sort` call on a freshly built array becomes an in-place insertion sort on an `array` (`Sorting.InsertionSort`). It is proved sorted and a permutation.
- The `filter`, `map` and spread expressions become functions. Lemmas state what those functions promise.
- The module-level STOMP client and its `subscriptions` object become the class `WebSocket.StompSession`. Disconnecting is a loop over the table.
- `Date.setMonth` mutates a date in place, so it becomes the method `RentalContract.JsDate.SetMonth`.
- The request interceptor writes into `request.headers`, so it becomes the method `Axios.RequestConfig.ApplyAuthHeader`.

The following are modelled with conventions of their own:

- JavaScript objects used as form records are `map<string, Value>` (`JsObject`). A spread followed by `[name]: v` becomes a map update.
- Missing optional strings (`contract.status`, `space.spaceType`, `space.building?.name`) are `""`. Every truthiness test in the source treats both the same way.
- In the contracts list, dates are day numbers, with `None` for a contract without one.
- All amounts are integers.
- `parseInt`, `trim`, `toLowerCase` and `includes` are written out in the module `JsString`. `parseFloat` is a parameter.

## Model

| member | source | states |
|---|---|---|
| `ContractsPage.NoCriteriaKeepsAll` | frontend/src/ContractsPage.js:64-81 | with no dates and nothing ticked, the filter keeps every contract in order |
| `ContractsPage.FilteredMeetCriteria` | frontend/src/ContractsPage.js:66-78 | every kept contract is from the list and meets each set criterion: a start date on or after the filter's, an end date on or before it, a non-empty status and space type among those ticked |
| `ContractsPage.FilterContractsComplete` | frontend/src/ContractsPage.js:65-81 | no contract that meets the criteria is dropped, and the result is a subsequence of the list |
| `ContractsPage.Page.HandleFilter` | frontend/src/ContractsPage.js:64-94 | the shown list is a permutation of the filtered contracts: non-decreasing or non-increasing by rent for priceAsc/priceDesc, by start date for dateAsc/dateDesc, and exactly the filtered subsequence for any other option |
| `ContractsPage.Page.HandleReset` | frontend/src/ContractsPage.js:97-104 | every criterion is emptied and the full list is shown |
| `ContractsPage.ResetThenFilterShowsAll` | frontend/src/ContractsPage.js:64-104 | filtering with the reset criteria gives back the loaded list |
| `ContractsPage.Page.TerminateContract` | frontend/src/ContractsPage.js:115-127 | after confirmation and a successful delete, both lists hold the list with that contract terminated; otherwise nothing changes |
| `ContractsPage.MarkTerminatedEffect` | frontend/src/ContractsPage.js:121-125 | termination keeps the length, sets status TERMINATED on the entries with that id and leaves every other entry as it was |
| `ContractsPage.TerminatedOffersNoAction` | frontend/src/ContractsPage.js:121-125 | a terminated contract offers neither Renew nor Terminate to anyone |
| `ContractsPage.ActionRoles` | frontend/src/ContractsPage.js:288-316 | Renew only for a tenant on an ACTIVE or EXPIRED contract; Terminate only for an owner or administrator on an ACTIVE one |
| `ContractsPage.RenewTerminateExclusive` | frontend/src/ContractsPage.js:288-316 | no user is offered both buttons on one contract |
| `ContractsPage.Page.constructor` | frontend/src/ContractsPage.js:7-15 | the initial state: empty lists and an empty filter panel |
| `ContractsPage.Page.Loaded` | frontend/src/ContractsPage.js:50-51 | both lists become the server's answer |
| `SpacesPage.OwnerSeesOwnSpaces` | frontend/src/SpacesPage.js:56-62 | an owner's filtered list holds only spaces they own |
| `SpacesPage.FilteredSpacesMeetCriteria` | frontend/src/SpacesPage.js:64-78 | every kept space is from the list; set price and area bounds are inclusive; "only available" keeps available spaces only; ticked locations and types restrict the building name and type |
| `SpacesPage.FilterSpacesIsSubsequence` | frontend/src/SpacesPage.js:56-78 | the filtered list is a subsequence of the loaded list and drops nothing that passes the tests |
| `SpacesPage.Page.HandleFilter` | frontend/src/SpacesPage.js:56-91 | the shown list is a permutation of the filtered spaces, ordered by price or area as the option says, and unsorted for any other option |
| `SpacesPage.DefaultViewByRole` | frontend/src/SpacesPage.js:31-43 | the default list is a tenant's available spaces in order, an owner's own spaces, and everything for anyone else |
| `SpacesPage.Page.HandleReset` | frontend/src/SpacesPage.js:94-111 | the panel is cleared, "only available" is ticked exactly for a tenant, and the role's default list is shown |
| `SpacesPage.ResetAgreesWithFilter` | frontend/src/SpacesPage.js:94-111 | applying the filter right after a reset shows exactly what the reset shows |
| `SpacesPage.UniqueLocationsSpec` | frontend/src/SpacesPage.js:119 | the location choices have no duplicates and are exactly the non-empty building names present |
| `SpacesPage.BuildingNames` | frontend/src/SpacesPage.js:119 | the names are taken position by position from the spaces |
| `SpacesPage.Page.Loaded` | frontend/src/SpacesPage.js:26-43 | the whole answer is kept and the role's default list is shown |
| `SpacesPage.Page.constructor` | frontend/src/SpacesPage.js:7-18 | the initial state: empty lists and bounds, "only available" ticked |
| `RentalContract.CalculateTotalSpec` | frontend/src/RentalContractPage.js:47-56 | the deposit is twice the rent, the first payment three times the rent, the total the rent times the duration; with no space every amount is 0 |
| `RentalContract.TotalCoversInitialPayment` | frontend/src/RentalContractPage.js:47-56 | for any offered duration and a non-negative rent, the total value is at least the first payment |
| `RentalContract.DefaultIsOffered` | frontend/src/RentalContractPage.js:13 | the default duration of 12 months is one of the offered options |
| `RentalContract.DaysInMonth` | frontend/src/RentalContractPage.js:23-24 | a month has 28 to 31 days; February has 29 exactly in a leap year |
| `RentalContract.JsDate.SetMonth` | frontend/src/RentalContractPage.js:24 | the date ends up `m` months on from January of its year (`MonthsOn`): on the same day, or in the month after by the days that overran when the target month is too short; the result is a valid date |
| `RentalContract.MonthsOnFromJanuary` | frontend/src/RentalContractPage.js:24 | counting `getMonth() + n` months from January is counting `n` months from the date's own month |
| `RentalContract.MonthsOnDay` | frontend/src/RentalContractPage.js:24 | a valid date moved on keeps its day of the month or lands on one of the first three days of a month |
| `RentalContract.ParseDuration` | frontend/src/RentalContractPage.js:24 | `parseInt` of the duration's text gives back the number of months |
| `RentalContract.EndDate` | frontend/src/RentalContractPage.js:22-24 | the end date is a valid date `contractDuration` months on from the start (`MonthsOn`): the same day of the month, or the overrun days into the following month when that day does not exist |
| `RentalContract.OneYearLater` | frontend/src/RentalContractPage.js:22-24 | a valid date moved twelve months on in `setMonth`'s sense (`MonthsOn(start, 12, end)`, which `EndDate` ensures) is the same day and month of the next year when its day is at most 28 |
| `RentalContract.JsDate.constructor` | frontend/src/RentalContractPage.js:22 | the copy holds the start date |
| `RentalContract.JsDate.GetMonth` | frontend/src/RentalContractPage.js:24 | reads the month |
| `RentalContract.SubmitGuards` | frontend/src/RentalContractPage.js:80-98 | a record is sent exactly when the terms are accepted, a payment method is chosen and the signature is not blank; otherwise the first failing guard in source order is reported |
| `RentalContract.GuardSpec` | frontend/src/RentalContractPage.js:83-96 | the guards fire in source order: terms first, then payment method, then a blank signature; none fires exactly when all three are satisfied |
| `RentalContract.InitialFormRejected` | frontend/src/RentalContractPage.js:13-17 | the initial form cannot be submitted, because the terms are not accepted |
| `RentalContract.SubmitFromPage` | frontend/src/RentalContractPage.js:19-25 | the request goes out exactly when no guard fires, otherwise with the first failing guard; the record sent starts and is created today and ends on a valid date `contractDuration` months on (`MonthsOn`), as the page derives it |
| `RentalContract.ContractDataSpec` | frontend/src/RentalContractPage.js:103-122 | the record is ACTIVE and paid, for this tenant, with the summary's rent and deposit, the page's dates, the chosen payment method and signature, and a number made of "RENT-" and the timestamp, which parses back to that timestamp |
| `WebSocket.Put` | frontend/src/helper/websocket.js:94 | assigning a property keeps the table's size when the key exists and grows it by one otherwise |
| `WebSocket.PutTopics` | frontend/src/helper/websocket.js:94 | assigning a property adds its key and keeps keys unique |
| `WebSocket.PutLookup` | frontend/src/helper/websocket.js:94 | after the assignment the key holds the new subscription and every other key keeps its own |
| `WebSocket.StompSession.Subscribe` | frontend/src/helper/websocket.js:92-117 | a subscription is recorded only when a client exists and is connected |
| `WebSocket.StompSession.SubscribeToPublic` | frontend/src/helper/websocket.js:92-96 | records `/topic/public` under `public` when connected, and otherwise does nothing |
| `WebSocket.StompSession.SubscribeToUser` | frontend/src/helper/websocket.js:99-103 | records `/queue/user.<id>` under `user` when connected and the id is non-zero, and otherwise does nothing |
| `WebSocket.StompSession.SubscribeToSpaces` | frontend/src/helper/websocket.js:106-110 | records `/topic/spaces` when connected, and otherwise does nothing |
| `WebSocket.StompSession.SubscribeToContracts` | frontend/src/helper/websocket.js:113-117 | records `/topic/contracts` when connected, and otherwise does nothing |
| `WebSocket.UserDestinationInjective` | frontend/src/helper/websocket.js:101 | different users get different queue destinations |
| `WebSocket.ExpectedTopicsByRole` | frontend/src/helper/websocket.js:53-73 | public always; the user queue exactly when a user with a non-zero id is stored; spaces for a tenant, contracts for an owner, both for an administrator, neither for anyone else |
| `WebSocket.ConnectTableSpec` | frontend/src/helper/websocket.js:53-73 | after connecting, the table holds the old keys plus exactly the expected topics, each on its destination, with keys unique and the other entries unchanged |
| `WebSocket.StompSession.OnConnectSuccess` | frontend/src/helper/websocket.js:53-79 | the session is connected and its table is the table after the role's subscribe calls |
| `WebSocket.StompSession.Disconnect` | frontend/src/helper/websocket.js:33-50 | with a client, every entry is unsubscribed in property order, the table is emptied and the client disconnected; without one, nothing happens |
| `WebSocket.StompSession.Connect` | frontend/src/helper/websocket.js:20-31 | a client exists and is not yet connected |
| `WebSocket.StompSession.constructor` | frontend/src/helper/websocket.js:5-8 | no client and an empty table |
| `WebSocket.FreshConnectTable` | frontend/src/helper/websocket.js:53-73 | the table a first connection builds holds exactly the expected topics, one entry each, the public destination among them |
| `WebSocket.FirstConnection` | frontend/src/helper/websocket.js:20-79 | a session connected from the initial state is connected, with exactly the expected topics subscribed and nothing unsubscribed |
| `WebSocket.ConnectThenDisconnect` | frontend/src/helper/websocket.js:20-79 | after the first connection, disconnecting unsubscribes one destination per expected topic, the public one among them, and leaves the table empty |
| `WebSocket.TopicsCount` | frontend/src/helper/websocket.js:8 | an object with unique keys has one entry per key |
| `NotificationCenter.ReceiveSpec` | frontend/src/helper/websocket.js:198-202 | the new notification is first, then the old ones in order; the list holds at most ten, and the oldest falls off a full list |
| `NotificationCenter.ReceiveAllSpec` | frontend/src/helper/websocket.js:198-202 | after a run of arrivals, the list is the arrivals newest first followed by the old entries, cut at ten |
| `NotificationCenter.DismissSpec` | frontend/src/helper/websocket.js:220-222 | dismissing removes every entry with that id and keeps the rest in order |
| `NotificationCenter.DismissIdempotent` | frontend/src/helper/websocket.js:220-222 | dismissing an id twice is the same as once |
| `NotificationCenter.Center.HandleNotification` | frontend/src/helper/websocket.js:198-202 | the list becomes the received list and stays within ten entries |
| `NotificationCenter.Center.DismissNotification` | frontend/src/helper/websocket.js:220-222 | the list becomes the dismissed list |
| `NotificationCenter.Center.ClearNotifications` | frontend/src/helper/websocket.js:215-217 | the list is emptied |
| `NotificationCenter.Center.OnConnected` | frontend/src/helper/websocket.js:184-189 | connected, with no error |
| `NotificationCenter.Center.OnError` | frontend/src/helper/websocket.js:190-195 | not connected, with the error message set |
| `NotificationCenter.Center.constructor` | frontend/src/helper/websocket.js:177-179 | an empty list, not connected, no error |
| `BuildingsPage.SearchSpec` | frontend/src/BuildingsPage.js:47-57 | a blank term keeps the list; any other term keeps exactly the buildings whose lower-cased name or address contains the lower-cased term; the result is a subsequence |
| `BuildingsPage.NameHitIsFound` | frontend/src/BuildingsPage.js:51-56 | a building whose lower-cased name has the term inside it is found |
| `BuildingsPage.NameOrderIsPreorder` | frontend/src/BuildingsPage.js:60-61 | the name comparison orders every pair and is transitive |
| `BuildingsPage.SortBuildings` | frontend/src/BuildingsPage.js:59-68 | the copy is permuted and ordered as `OrderedFor` says (by name, by year descending or ascending, or by floors descending), and is untouched for any other option |
| `BuildingsPage.FilterBuildings` | frontend/src/BuildingsPage.js:47-68 | the result is a permutation of the search's result, ordered for the sort option, and the search's result itself for an unknown option (`ShownFor`) |
| `BuildingsPage.Page.HandleFilter` | frontend/src/BuildingsPage.js:47-70 | the shown list is what `ShownFor` describes for the current list, term and option; `buildings` is not reordered |
| `BuildingsPage.Page.CreateSucceeded` | frontend/src/BuildingsPage.js:86-97 | the returned building is appended at the end, the form closes and is cleared, and the shown list is the list filtered again (`ShownFor`), as the effect on `buildings` does |
| `BuildingsPage.ReplaceByIdSpec` | frontend/src/BuildingsPage.js:104-106 | the update replaces exactly the entries with that id, in place, and keeps the length |
| `BuildingsPage.Page.UpdateSucceeded` | frontend/src/BuildingsPage.js:100-116 | with a current building, its entries are replaced, the edit form closes and the shown list is filtered again (`ShownFor`); without one, nothing changes |
| `BuildingsPage.RemoveByIdSpec` | frontend/src/BuildingsPage.js:122 | the delete drops every entry with that id and keeps the others in order |
| `BuildingsPage.Page.Delete` | frontend/src/BuildingsPage.js:118-129 | the list shrinks only after confirmation and a successful delete, and the shown list is then filtered again (`ShownFor`); otherwise nothing changes |
| `BuildingsPage.Page.Loaded` | frontend/src/BuildingsPage.js:30-34 | the answer becomes the list and the shown list is that list filtered (`ShownFor`), as the effect on `buildings` does |
| `BuildingsPage.Page.SetSearchTerm` | frontend/src/BuildingsPage.js:43-45 | a new search term takes effect and the shown list is filtered again (`ShownFor`) |
| `BuildingsPage.Page.SetSortOption` | frontend/src/BuildingsPage.js:43-45 | a new sort option takes effect and the shown list is filtered again (`ShownFor`) |
| `BuildingsPage.InputChangeSpec` | frontend/src/BuildingsPage.js:72-83 | floors and year are stored as parsed integers or 0, coordinates as the parsed number or 0, other fields as typed; no other field changes |
| `BuildingsPage.NumericInputRoundTrip` | frontend/src/BuildingsPage.js:76-78 | a number typed in decimal into the floors or year box is stored as that number |
| `BuildingsPage.Page.HandleInputChange` | frontend/src/BuildingsPage.js:72-83 | the form becomes the coerced form |
| `BuildingsPage.Page.HandleEdit` | frontend/src/BuildingsPage.js:131-143 | the building becomes current, its fields fill the form, and editing starts |
| `BuildingsPage.Page.HandleCancel` | frontend/src/BuildingsPage.js:156-161 | the forms close and the form is cleared |
| `BuildingsPage.Page.constructor` | frontend/src/BuildingsPage.js:7-22 | the initial state: sorted by name by default, with the empty form |
| `CreateSpacePage.DefaultFormSpec` | frontend/src/CreateSpacePage.js:12-37 | a new space starts available, as an office, with no amenities and no building chosen |
| `CreateSpacePage.FormAfterBuildings` | frontend/src/CreateSpacePage.js:69-74 | the first loaded building is preselected, and only that field changes |
| `CreateSpacePage.HandleChangeSpec` | frontend/src/CreateSpacePage.js:84-102 | a checkbox stores `checked`, a number input the parsed value or 0, any other input the raw value; no other field changes |
| `CreateSpacePage.AmenityChangeSpec` | frontend/src/CreateSpacePage.js:105-119 | ticking appends the amenity at the end; unticking removes every copy and keeps the others in order; no other field changes |
| `CreateSpacePage.TickThenUntick` | frontend/src/CreateSpacePage.js:105-119 | ticking and then unticking an amenity leaves the list without it and otherwise as it was |
| `CreateSpacePage.ShapePayload` | frontend/src/CreateSpacePage.js:128-135 | the payload has `owner.id` equal to the user's id and `building.id` equal to the chosen building, no `buildingId` key, and every other form field copied |
| `CreateSpacePage.CanUseFormSpec` | frontend/src/CreateSpacePage.js:57-59 | only an owner or an administrator may use the form, the same users who may manage buildings |
| `SpaceDetailsPage.UpToDot` | frontend/src/SpaceDetailsPage.js:46 | the first segment is a dot-free prefix of the name, ending at its first dot |
| `SpaceDetailsPage.SplitPathFirstTwo` | frontend/src/SpaceDetailsPage.js:46 | a dotted name addresses its first two segments only |
| `SpaceDetailsPage.DottedChangeEffect` | frontend/src/SpaceDetailsPage.js:44-53 | a dotted name changes one property of the nested object; the object's other properties and all other top-level keys stay as they were |
| `SpaceDetailsPage.UndottedChangeEffect` | frontend/src/SpaceDetailsPage.js:55 | a name without a dot sets that one top-level key |
| `SpaceDetailsPage.CheckboxChangeEffect` | frontend/src/SpaceDetailsPage.js:59-62 | the checkbox handler stores the boolean and changes nothing else |
| `SpaceDetailsPage.PermissionsSpec` | frontend/src/SpaceDetailsPage.js:102-103 | edit exactly for the owning owner, rent exactly for a tenant on an available space, never both |
| `SpaceDetailsPage.DefaultViewPermissions` | frontend/src/SpaceDetailsPage.js:102-103 | every space in an owner's default list may be edited by them, and every space in a tenant's default list may be rented |
| `MapPage.ShownSpacesSpec` | frontend/src/MapPage.js:65-77 | a shown space is from the list, has the chosen type unless ALL is chosen, and is available when the box is ticked; nothing that passes is left out; order is kept |
| `MapPage.MarkersSpec` | frontend/src/MapPage.js:153-161 | every marker stands for a shown space with both coordinates non-zero, at its position and with its type's icon, and every such space gets one |
| `MapPage.Markers` | frontend/src/MapPage.js:153-154 | there are at most as many markers as shown spaces |
| `MapPage.ZeroCoordinateHasNoMarker` | frontend/src/MapPage.js:154 | a coordinate of 0 counts as missing |
| `MapPage.GetIconSpec` | frontend/src/MapPage.js:79-90 | office, retail and warehouse get three different icons, and every other type gets the default |
| `Axios.GetAxiosInstance` | frontend/src/helper/axios.js:25-30 | the authentication service exactly for an endpoint containing `/login`, `/register` or `/auth` |
| `Axios.AuthPathsRouteToAuth` | frontend/src/helper/axios.js:26-27 | any path with one of those markers anywhere in it goes to the authentication service |
| `Axios.OtherPathsRouteToMain` | frontend/src/helper/axios.js:29 | any other path goes to the main service |
| `Axios.RequestConfig.ApplyAuthHeader` | frontend/src/helper/axios.js:33-39 | with a stored token the header `Authorization: Bearer <token>` is set; without one the headers are untouched |
| `Axios.RequestConfig.constructor` | frontend/src/helper/axios.js:33-35 | the request's headers as given |
| `Axios.HeadersSent` | frontend/src/helper/axios.js:25-39 | requests to the authentication service never carry the token; requests to the main service carry it whenever one is stored, with every other header kept |
| `Sorting.InsertionSort` | frontend/src/ContractsPage.js:84-92 | the in-place sort leaves the array ordered by the comparator and a permutation of what it was |
| `Seqs.Filter` | frontend/src/ContractsPage.js:65 | `filter` keeps only passing elements, loses none of them, and never grows the list |
| `Seqs.FilterIsSubsequence` | frontend/src/SpacesPage.js:61 | `filter` keeps the order of what it keeps |
| `Seqs.MapWhere` | frontend/src/ContractsPage.js:122-124 | the conditional `map` keeps the length, changes exactly the selected entries, and leaves the others as they were |
| `Seqs.Distinct` | frontend/src/SpacesPage.js:119 | `[...new Set(...)]` has no duplicates and the same members as its input |
| `Seqs.FilterIdempotent` | frontend/src/helper/websocket.js:221 | filtering twice with the same test is filtering once |
| `Seqs.FilterFilter` | frontend/src/MapPage.js:68-74 | chained filters select what one filter with both tests selects |
| `Seqs.SubsequenceTransitive` | frontend/src/MapPage.js:66-76 | a subsequence of a subsequence is a subsequence |
| `JsString.TrimEmptyIffBlank` | frontend/src/RentalContractPage.js:93 | `trim()` is empty exactly for a string made of white space only |
| `JsString.TrimStart` | frontend/src/BuildingsPage.js:51 | the result is a suffix that starts with a non-white-space character, and the part removed is blank |
| `JsString.TrimEnd` | frontend/src/BuildingsPage.js:51 | the result is a prefix that ends with a non-white-space character, and the part removed is blank |
| `JsString.ToLower` | frontend/src/BuildingsPage.js:52-55 | `toLowerCase` works character by character and keeps the length |
| `JsString.ContainsInside` | frontend/src/BuildingsPage.js:54-55 | `includes` finds a string placed anywhere inside another |
| `JsString.ContainsWitness` | frontend/src/helper/axios.js:26 | when `includes` holds, there is a position where the string occurs |
| `JsString.NatToString` | frontend/src/RentalContractPage.js:118 | decimal text of a number is non-empty and made of digits only |
| `JsString.NatToStringLeadingZero` | frontend/src/RentalContractPage.js:118 | decimal text starts with 0 only for zero |
| `JsString.ParseIntOfIntToString` | frontend/src/BuildingsPage.js:78 | `parseInt` reads back the decimal text of any integer |
| `JsString.ParseUnsignedOfNatToString` | frontend/src/RentalContractPage.js:24 | the unsigned part of `parseInt` reads back the decimal text of any natural number |
| `JsString.DigitPrefixLength` | frontend/src/BuildingsPage.js:78 | `parseInt` reads the longest run of digits at the front |

## Left out

- The server side: the leasing engine, contract lifecycle and availability rules live in the Java back end, outside the modelled client.
- HTTP, local storage and navigation: every request, the stored user and token, and each redirect. Their results are parameters: the server's answer, the stored user, the confirm dialog's answer, and whether a request succeeded.
- The second request of the rent submission, which marks the space unavailable. It is a separate, non-atomic HTTP call whose outcome the server decides.
- The owner's contract list: for each of the owner's spaces, one request for that space's contracts, run together under `Promise.all`. The list is the concatenation of the answers, in the order of the owner's spaces. This is network work; the model takes the loaded list as given (`ContractsPage.Page.Loaded`).
- The SockJS/STOMP transport, message parsing, the window event that carries a notification, and the browser `Notification` API. These are foreign library calls. The model keeps only the subscription table and the notification list.
- The CSS appended to the WebSocket helper file. It is not code.
- JSX rendering and the pages with nothing beyond rendering or I/O.
- jsPDF, the Leaflet map setup, and locale-dependent formatting. `localeCompare` is modelled as plain character order.
- Floating point: prices, areas and coordinates are integers. `parseFloat` is a parameter that yields an integer or nothing, and nothing falls back to 0.
- The clock and time zones: `Date.now()` and today's date are parameters, and dates are calendar days in local time. The page sends `toISOString().split('T')[0]`, which is the UTC date. Near local midnight, for example before 02:00 or 03:00 in Romania (UTC+2 or UTC+3), that is the previous calendar day. This UTC shift is not modelled, and neither is the ISO text formatting of dates.
- JavaScript's `Date` for the contracts list: a date string is a day number. A missing start date sorts as day 0, which is the epoch that `new Date(null)` gives.
- Whether `Array.prototype.sort` is stable: the contracts are only proved to be a sorted permutation of the filtered list.
- `toLowerCase` beyond ASCII letters, and `parseInt`'s loss of precision on very long numbers.
- Spreading a string or an array into a form object: the model spreads only objects and treats anything else as empty.
- `CreateSpacePage.AmenityChange`: when `amenities` is not a list, the source throws or spreads a string. The model returns `None` there.
- Error and loading flags that only change what is rendered, such as `loading`, `isSubmitting` and the error texts of the pages. The exception is the notification centre's error, which is modelled. The model writes an absent error as `""` where the source uses `null`.
