# Campus app core logic in Dafny

This project models the decision and list logic of the campus mobile app, with the rendering left aside. The modelled parts are:

- **The background data saga** (`DataSaga`). One pass of the refresh loop is modelled: the time-to-live gates of weather, surf, links, events and news, and the conference fetch with the conference card's activation state machine. It also covers survey discovery, `savedExists`, and the link-icon test that decides which icons are prefetched as images.
- **The conference schedule list** (`ConferenceList`):
  - `adjustData`: trims the schedule or the saved list to the rows a card shows.
  - `isSaved`.
  - `convertToTimeMap`: groups sessions by start time.
- **The shuttle reducer** (`Shuttle`).
- **The dining screen's filter toggle** (`Dining`).
- **The card preferences screen** (`CardPreferences`): numbering the cards, reading a new order back as card ids, the release handler and the conference-row hiding test.

Shared modules:

- `Js` models the JavaScript values the code inspects: truthiness, `Array.isArray`, property-key conversion and `Object.assign({}, v)`.
- `Seqs` holds sequence helpers: filtering, subsequences, `indexOf` and `splice(indexOf(x), 1)`.
- `Settings` holds the time-to-live constants of `app/AppSettings.js`.

Time is an integer number of milliseconds passed in as `now`. Every service the saga calls is an input: a `Reply` that either carries the returned value or says that the call threw. One cycle is a sequence of `Effect`s (`Call`, `Put`, `Delay`). An exception inside the cycle's `try` block skips the rest of the block but not the pause.

Where the code changes state step by step, the model is a method with loop invariants. Each such method is proved equal to a specification function. The properties the app relies on are proved about those functions as lemmas:

- `AdjustData`, `ScanSaved`, `IsSaved`, `GroupByStart`, `PopEach`, `ConvertToTimeMap`
- `SavedExists`, `UpdateConference`, `UpdateSurveys`, `WatchDataOnce`
- `GetCardObject`, and the two classes `Dining.DiningDetail` and `CardPreferences.CardPreferences`

The reducer and the row predicate are pure functions.

A lookup of a key that a map does not hold throws a TypeError in the app. Such lookups are `scheduleIdMap[key]['start-time']` and `cardObject[_order[i]].id`. Each is a result of its own in the model (`MissingSession`, `NoSession`, `None`, `threw`), never a precondition.

## Model

| member | source | states |
|---|---|---|
| DataSaga.DomainStep | app/sagas/dataSaga.js:48-78 | The fetch is skipped, and nothing happens, exactly when the entry is younger than the time-to-live and holds truthy data. At or past the time-to-live, or without data, the domain's service is called first. A throw ends the step. The `SET_*` action follows the call only for a truthy result, or for any result from events and news. |
| DataSaga.OthersPublishOnlyTruthy | app/sagas/dataSaga.js:127-144 | Once the gate is open, weather, surf and links dispatch their `SET_*` action after the call exactly when the result is truthy. |
| DataSaga.EventsAndNewsPublishAnything | app/sagas/dataSaga.js:146-174 | Once the gate is open, events and news dispatch `SET_EVENTS`/`SET_NEWS` with whatever was returned, a falsy value included. |
| DataSaga.SavedExists | app/sagas/dataSaga.js:196-206 | The push loop returns the saved ids the schedule still lists, in saved order, and `[]` for a non-array. |
| DataSaga.StillListedKeepsListed | app/sagas/dataSaga.js:196-206 | The result is `[]` for a non-array and otherwise a subsequence of the saved list. An id is in it exactly when it is saved and listed, and a listed id keeps its number of copies. |
| DataSaga.ConferenceStep | app/sagas/dataSaga.js:80-125 | The step does nothing at all exactly when the gate is closed. The gate opens only when the data is strictly older than the conference time-to-live and `saved` is an array. Otherwise the fetch comes first. The step throws exactly when the gate is open and the fetch throws, and then the fetch is its only effect. |
| DataSaga.UpdateConference | app/sagas/dataSaga.js:80-125 | The stepwise script equals the conference step function. `ConferenceStep` states its gate, and `ActivationTransitions` and the lemmas after it state what its actions do to the card. |
| DataSaga.ConferenceNotDueNotFetched | app/sagas/dataSaga.js:84-87 | While the gate is closed, the conference service is not called anywhere in the cycle. |
| DataSaga.ConferenceGateBoundary | app/sagas/dataSaga.js:84-87 | The comparison is strict. Data exactly one time-to-live old is not refetched. One millisecond later it is, exactly when `saved` is an array. |
| DataSaga.ActivationTransitions | app/sagas/dataSaga.js:92-122 | Inside the inclusive window with `autoActivated === false`, the card ends active, auto-activated, with an empty saved list, and the fetched conference is published. An active card has its saved list reconciled against the schedule, and the conference is published. An inactive card gets nothing. Outside the window, a truthy `autoActivated` switches both flags off and keeps the published conference, and otherwise nothing is dispatched. |
| DataSaga.ConferencePublishedWhenActive | app/sagas/dataSaga.js:95-110 | `SET_CONFERENCE` with the fetched conference is dispatched exactly when now is inside the window and either `autoActivated === false` or the card is active. |
| DataSaga.FlagsMoveInLockstep | app/sagas/dataSaga.js:98-117 | The cycle changes `active` only together with `autoActivated`, and to the same boolean. |
| DataSaga.ColdStartOncePerWindow | app/sagas/dataSaga.js:92-110 | After a cold start, a later pass inside a window only reconciles the saved list and publishes the newly fetched conference. It never wipes the list again. |
| DataSaga.DeactivationOncePerExit | app/sagas/dataSaga.js:111-122 | After an auto-deactivation, a later pass outside a window dispatches nothing. |
| DataSaga.UpdateSurveys | app/sagas/dataSaga.js:176-194 | The loop over the remote ids equals the survey step. A detail call that throws ends the step. |
| DataSaga.NewSurveysFetchesUnknown | app/sagas/dataSaga.js:185-191 | When no detail call fails, the loop calls the detail service for the unknown remote ids and publishes them once per occurrence in the remote list, in remote order. |
| DataSaga.SurveyDiscovery | app/sagas/dataSaga.js:176-194 | When no detail call throws: the step first calls the id list. If that list is an array longer than the known ids, one `SET_SURVEY` per unknown id is dispatched, then exactly one `SET_SURVEY_IDS`. Otherwise nothing is dispatched. |
| DataSaga.NewSurveysPutsOnlySurveys | app/sagas/dataSaga.js:185-191 | The loop dispatches nothing but `SET_SURVEY`. |
| DataSaga.NewSurveysStopsAtThrow | app/sagas/dataSaga.js:185-191 | If the detail call of some unknown remote id throws, the loop throws. Its last effect is a detail call, for an unknown remote id whose call throws. |
| DataSaga.SurveyDetailFailure | app/sagas/dataSaga.js:185-192 | When a detail call throws, the step throws. The `SET_SURVEY`s already dispatched stay, and `SET_SURVEY_IDS` is not dispatched. |
| DataSaga.Steps | app/sagas/dataSaga.js:33-39 | A cycle has exactly seven steps, one per `yield call` in the loop body. |
| DataSaga.WatchDataOnce | app/sagas/dataSaga.js:30-46 | One pass of the loop equals the chained steps, then `UPDATE_DINING` unless a step threw, then the pause. |
| DataSaga.CycleShape | app/sagas/dataSaga.js:30-46 | The pause always ends the cycle. Without a throw, every step's effects appear, then `UPDATE_DINING`. If step k is the first to throw, only steps up to k appear, and `UPDATE_DINING` does not. |
| DataSaga.StepsCallInOrder | app/sagas/dataSaga.js:33-39 | Each step calls only its own service, and the survey step calls the list before the details. |
| DataSaga.CycleCallsInOrder | app/sagas/dataSaga.js:30-40 | All service calls of a cycle come in the fixed order weather, surf, conference, links, events, news, survey list, survey details. |
| DataSaga.FreshDomainNotFetched | app/sagas/dataSaga.js:52-56 | A domain whose entry is fresh and holds data is not fetched anywhere in the cycle. |
| DataSaga.IndexOfFrom | app/sagas/dataSaga.js:218 | `indexOf(sub, from)` returns -1 or a position where `sub` occurs. It returns `from` exactly when `sub` occurs there. |
| DataSaga.PrefetchedIffNotIconName | app/sagas/dataSaga.js:216-220 | An icon is prefetched exactly when it does not start with `fontawesome:`. |
| DataSaga.PrefetchedIconsAreUrls | app/sagas/dataSaga.js:213-223 | The prefetched icons are exactly the link icons without the `fontawesome:` prefix, and none for a non-array. |
| ConferenceList.FirstMissing | app/views/conference/ConferenceListView.js:117-118 | Returns -1 exactly when every id has a session. Otherwise it returns the position of the first id without one, where the lookup throws. |
| ConferenceList.AdjustData | app/views/conference/ConferenceListView.js:89-139 | When the call is not personal or `saved` is not an array: falsy `rows` returns the schedule ids, and otherwise exactly `rows` slots hold the schedule prefix padded with `undefined`. When personal: falsy `rows` or a short saved list returns a copy of it, and otherwise the trimmed saved list. |
| ConferenceList.ScanSaved | app/views/conference/ConferenceListView.js:114-135 | The splice loop with its early `break`, then the truncation, equals the trimmed saved list, or the TypeError on an id without a session. |
| ConferenceList.ScanEnd | app/views/conference/ConferenceListView.js:116-128 | The scan stops at the first point after which at most `rows` ids remain, or at the end of the list. |
| ConferenceList.PendingIsUpcoming | app/views/conference/ConferenceListView.js:115-124 | After examining j ids, the working list holds the examined ids whose sessions have not started, then the unexamined ids. |
| ConferenceList.TrimSavedMissing | app/views/conference/ConferenceListView.js:116-118 | The trim throws exactly when the scan meets an id without a session before it stops, and it names a saved id missing from the map. |
| ConferenceList.TrimSavedTakes | app/views/conference/ConferenceListView.js:125-134 | When the trim succeeds, at least `rows` ids remain, and the result is their first `rows`. |
| ConferenceList.TrimSavedKeepsRows | app/views/conference/ConferenceListView.js:112-135 | The personal home card shows exactly `rows` ids, as a subsequence of the saved list. The scan went on while more than `rows` remained. Every id shown has not started or lies past the stopping point. |
| ConferenceList.TrimSavedStops | app/views/conference/ConferenceListView.js:116-134 | When the scan stopped early, it cut nothing: every unexamined id and every examined upcoming id is shown. When it ran to the end, the first `rows` upcoming ids are shown. |
| ConferenceList.KeptIsSubsequence | app/views/conference/ConferenceListView.js:115-124 | What the scan keeps is a subsequence of the saved list. |
| ConferenceList.IsSaved | app/views/conference/ConferenceListView.js:141-151 | Returns `true` exactly when `id` is in the array, `false` for a non-array, and `undefined` for an array without it. It is truthy exactly when `id` is saved. |
| ConferenceList.GroupStep | app/views/conference/ConferenceListView.js:158-163 | Creating a missing bucket and pushing the next session onto its start time's bucket keeps every bucket equal to the sessions so far that start then. |
| ConferenceList.GroupByStart | app/views/conference/ConferenceListView.js:156-164 | The grouping loop yields one bucket per start time, holding the sessions that start then in input order, or the TypeError on the first id without a session. The keys are created in the order the start times first occur. |
| ConferenceList.OrderStep | app/views/conference/ConferenceListView.js:159-162 | A session creates a new key, at the end of the key order, exactly when its start time has no bucket yet. |
| ConferenceList.FirstStartsCovers | app/views/conference/ConferenceListView.js:156-164 | The key order lists each start time of the schedule once, and nothing else. |
| ConferenceList.FirstStartsGrows | app/views/conference/ConferenceListView.js:156-164 | The key order of a prefix of the schedule is a prefix of the whole key order, and it already lists the start time of the prefix's last session. |
| ConferenceList.SectionOrder | app/views/conference/ConferenceListView.js:49 | When a session is the first to start at its time, every earlier session's section comes before its section in the order handed to the list view. |
| ConferenceList.PopEach | app/views/conference/ConferenceListView.js:167-171 | The `header` pass keeps every key and drops the last session of each bucket. |
| ConferenceList.ConvertToTimeMap | app/views/conference/ConferenceListView.js:153-174 | A non-array gives an empty map. Otherwise the keys are the start times, in the order they first occur, and each bucket holds the sessions starting then in input order, minus its last one with `header`. |
| ConferenceList.TimeMapPartitions | app/views/conference/ConferenceListView.js:156-171 | Every session lands in the bucket of its start time, buckets keep input order, and bucket sizes sum to the input length. With `header`, the sum is one less per bucket. |
| Shuttle.Current | app/reducers/shuttle.js:1-12 | Without a state, the reducer starts from `savedStops = []`, `vehicles = {}`, `lastUpdated = 0`, `lastScroll = 0`, and `null` for the other fields. |
| Shuttle.Reduce | app/reducers/shuttle.js:12-73 | Each action type writes a fixed set of fields, and every other field keeps its value. A written field takes the action's value of the same name, `nowTime` for `lastUpdated`, a one-route object for `vehicles`, or a shallow copy for `closestStop`. |
| Shuttle.UnknownActionKeepsState | app/reducers/shuttle.js:70-71 | An unknown action returns the state unchanged, and on the first call that is the initial state. |
| Shuttle.ReduceIdempotent | app/reducers/shuttle.js:12-73 | Applying an action twice gives the same state as applying it once. |
| Shuttle.SetVehiclesKeepsOneRoute | app/reducers/shuttle.js:46-52 | After `SET_VEHICLES`, `vehicles` is an object with the action's route as its only key, holding the action's vehicles. |
| Shuttle.ClosestStopIsObject | app/reducers/shuttle.js:53-55 | After `SET_CLOSEST_STOP`, `closestStop` is an object. It is the action's own object when one was given, and empty for `null` or `undefined`. |
| Js.ShallowCopy | app/reducers/shuttle.js:54 | `Object.assign({}, v)` always gives an object. It has the same properties for an object and none for `undefined`, `null`, booleans and numbers. |
| Dining.DiningDetail.constructor | app/views/dining/DiningDetail.js:16-22 | The screen starts with no filters, `Breakfast` as the active meal, and its invariant established. |
| Dining.DiningDetail.AddFilter | app/views/dining/DiningDetail.js:28-48 | A meal name replaces `activeMeal` and leaves `filters` alone. Any other name leaves `activeMeal` alone and toggles `filters`. The invariant is kept: no repeats, no meal names, a meal as the active meal. |
| Dining.ToggleChanges | app/views/dining/DiningDetail.js:34-46 | An absent filter is appended. A present one has exactly its first occurrence spliced out, at the `indexOf` position, and the other elements keep their order. |
| Dining.ToggleIsSwitch | app/views/dining/DiningDetail.js:34-46 | On a list without repeats, toggling keeps the list free of repeats. A name is in the new list exactly when it was in the old list and is not the toggled name, or it is the toggled name and was absent. |
| Dining.ToggleTwiceAbsent | app/views/dining/DiningDetail.js:34-46 | Toggling an absent filter twice restores the list exactly. |
| Dining.ToggleTwicePresent | app/views/dining/DiningDetail.js:34-46 | Toggling a present filter twice moves it to the end: same elements, and the original list exactly when the filter was last. |
| Seqs.IndexOf | app/views/dining/DiningDetail.js:34 | `indexOf` returns -1 exactly when the element is absent, and otherwise its first position. |
| Seqs.RemoveFirstIsSplice | app/views/dining/DiningDetail.js:41-42 | Removing the first occurrence equals `splice(indexOf(x), 1)` on a list holding `x`. |
| CardPreferences.GetCardObject | app/views/preferences/CardPreferences.js:31-43 | The index loop yields the card numbering: position `i` of `cardOrder` holds `cards[cardOrder[i]]`. `OrderedIsReindexed` states what reading it back gives. |
| CardPreferences.OrderedIds | app/views/preferences/CardPreferences.js:45-51 | The result has the length of the order, and entry `i` is the id of the card numbered `order[i]`. The read throws exactly when some number has no card. |
| CardPreferences.CardPreferences.constructor | app/views/preferences/CardPreferences.js:18-20 | Mounting stores the numbered cards and leaves `_order` unset. |
| CardPreferences.CardPreferences.OnChangeOrder | app/views/preferences/CardPreferences.js:85 | The sortable list's new order replaces `_order`, and the numbered cards stay as they were. |
| CardPreferences.CardPreferences.GetOrderedArray | app/views/preferences/CardPreferences.js:45-51 | The push loop equals the ids read off in order, or the TypeError. |
| CardPreferences.CardPreferences.HandleRelease | app/views/preferences/CardPreferences.js:53-59 | Releasing a row dispatches what the release function describes. |
| CardPreferences.ReleaseEffects | app/views/preferences/CardPreferences.js:53-59 | `ORDER_CARDS` is dispatched only when `_order` is an array, always with the ids read off. The scroll toggle is always the last effect unless reading the order threw. |
| CardPreferences.OrderedIsReindexed | app/views/preferences/CardPreferences.js:31-51 | Reading the numbered cards back in a new order of their numbers gives the stored card ids rearranged by that order. |
| CardPreferences.IdentityOrderRoundTrip | app/views/preferences/CardPreferences.js:18-51 | With the identity order and each card stored under its own id, the ids read back are `cardOrder` itself. |
| CardPreferences.ReleasedOrderIsPermutation | app/views/preferences/CardPreferences.js:45-51 | When the new order is a rearrangement of the card numbers, the ids read back are a permutation of `cardOrder`. |
| CardPreferences.RenderedRowsShown | app/views/preferences/CardPreferences.js:68-83 | A row is rendered exactly when it is not the conference card, or there is conference data. Rendered rows keep their order, and with conference data all rows are rendered. |

## Left out

- Rendering, styles and the sub-components of the views are not modelled. The same goes for `connect`/`mapStateToProps`/`mapDispatchToProps` and `setState` batching, beyond the state fields a method sets. `app/views/news/NewsDetail.js` is presentation only and not part of this model.
- The services (weather, surf, conference, survey, links, events, news) are network calls in files that are not part of this model. Each is an input `Reply` carrying a value or an exception.
- The saga's `while (true)` loop, the wall-clock wait of the `delay` and `console.log` are not modelled. One cycle ends with a `Delay` effect.
- DataSaga.WatchDataOnce: every step reads the clock afresh in the app; one `now` serves the whole cycle here, so steps that straddle a time-to-live boundary within one cycle are not captured.
- `Image.prefetch` (conference logos and link icons) is a fire-and-forget side effect and is not an effect of the cycle. Only the choice of icons is modelled. A link without a string `icon` makes `indexOf` throw inside the cycle. The model takes icons as strings.
- DataSaga.UpdateConference: `savedExists` is run through a saga `call` in the app. Its result is computed in place here, without a `Call` effect for it.
- Store slices are taken to have the shapes the reducers give them. The model assumes `cards.conference` exists and that `allIds` is an array. A missing slice would throw a TypeError that is not modelled.
- Numbers are integers. JavaScript's floating point, `NaN` and `undefined` timestamps (comparisons with `undefined` are false) are not modelled.
- CardPreferences: the numbers that the sortable list reports are modelled as natural numbers. The string keys `"0"`, `"1"`, … that it may report name the same properties of `cardObject`, so the distinction is not kept.
- The row-hiding test is modelled over the rows' card values. The sortable list's own bookkeeping is not modelled.
- The `setCardState` callback and the scroll and activation callbacks of the preferences screen only forward to the store. They are not modelled.
- Shuttle: a state is a record of the eight fields `initialState` declares. Extra properties copied by the object spread are not modelled, nor is the commented-out route-toggling code.
- Dining.ToggleTwicePresent: toggling a filter twice restores `filters` only when the filter was absent (`Dining.ToggleTwiceAbsent`) or already last. A present filter that is not last moves to the end, as `app/views/dining/DiningDetail.js:34-46` does.
- DataSaga.ApplyOne: the conference card's transitions assume what the store does with the actions. `UPDATE_CARD_STATE` and `UPDATE_AUTOACTIVATED_STATE` for the conference card set its `active` and `autoActivated` flags, and `CHANGED_CONFERENCE_SAVED` replaces the saved list. The reducers that do this are not part of this model. `ActivationTransitions`, `FlagsMoveInLockstep`, `ColdStartOncePerWindow` and `DeactivationOncePerExit` rest on that assumed behaviour.
- DataSaga.ConferenceStep: the fetched conference is taken to have `uids` as an array of ids and numbers for `start-time` and `end-time`. A conference without `uids` makes `scheduleIds.includes` throw (`app/sagas/dataSaga.js:200`) when the saved list is not empty. That would end the cycle before `UPDATE_DINING`, and it is not modelled.
- ConferenceList.ConvertToTimeMap: the key order is the order of first occurrence, which is what JavaScript gives for keys that are not array indices. Millisecond timestamps are above 2^32 − 2, so they are not array indices. A start time from 0 to 2^32 − 2 would be listed in numeric order instead, and that case is not modelled.
- ConferenceList.AdjustData: `rows` is a non-negative integer. A negative `rows` is truthy in JavaScript and would reach `slice(0, rows)`, which drops ids from the end. That case is not modelled.
