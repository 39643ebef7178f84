# Offline-first mission forms, modelled in Dafny

A model of the core of a field-data mobile app. Users pick an asset, a driver and a
container ("bac") through searchable selectors. They attach a photo and a position, then
submit a mission form. When connected, the form goes straight to the server. When not, it
goes into an offline queue on the device, which the user syncs by hand later.

The model covers:

- both offline queue implementations: the context provider and the hook the screens use.
  Each is a class whose `forms` and `count` fields are reassigned by load, save, delete,
  update and clear. Every mutation overwrites the whole `offline_forms` record of a shared
  `DeviceStorage` object.
- the list operations behind both queues, and what they do to entry ids.
- the autocomplete selector. Its static-list filter is a pure function. Its fetch mode is a
  transition function over discrete events, and a class performs the same updates field by
  field, proved equal to that function.
- the form draft store: one setter per field, a reset, and the validity predicate.
- the form screen's submit and confirm-save handlers: the location step, the payloads, the
  reverse-geocode address, and the online/offline branch.
- the offline list screen: sync, edit, and delete or clear-all behind a confirmation.
- the API client: the search bodies, the response mappers, title stripping on save, the
  missing-session guard, and login/logout with the session record.

What the model shows about the hook that the screens use:

- After a load, its count is one more than the number of entries (`OfflineFormsHook.LoadOvercounts`).
- Its delete decrements the count even when nothing was removed (`OfflineFormsHook.DeleteTwiceDrifts`).
- Its delete does not await the storage write, so a failed write leaves memory and storage
  disagreeing (`OfflineFormsHook.UnawaitedDeleteDiverges`).
- Each screen holds its own hook instance. A stale instance writes back an entry another
  instance deleted (`OfflineFormsHook.StaleInstanceRestoresDeleted`).
- Entry ids are the clock reading as a decimal string. Two saves in the same millisecond
  share an id (`QueueSpec.SameClockSameId`), and syncing one of them then deletes both
  (`OfflineFormsScreen.SyncDropsTwin`).

Oracles, passed in as parameters:

- the clock (`idClock`, `stampClock`, `today`);
- storage failures (`readFails`, `writeFails`, `removeFails`);
- the network state (`isConnected`, `connected`);
- what `fetch` answers (`Reply`);
- what the position services answer (`Device`);
- the answers to pending selector fetches (`Respond` events).

JSON serialisation is taken to be the identity. Numbers are integers.

## Notable behaviour of the code

Each point below is a fact about the code, with the lines it comes from and the member that states it:

- A load with a failed read or no stored record leaves the list and the count as they were. It does not reset them to empty (contexts/OfflineFormsProvider.tsx:40-51, hooks/useOfflineForms.ts:18-31; `OfflineFormsProvider.ProviderQueue.Load`, `OfflineFormsHook.HookQueue.Load`).
- A failed queue write is caught and logged, so the caller never learns of it (hooks/useOfflineForms.ts:49-51). Offline, the form screen then shows its "saved locally" alert anyway (app/tabs/form.tsx:317-331; `FormScreen.OfflineWriteFailureUnreported`).
- The hook's count is not always the list length. A load sets it one too high (hooks/useOfflineForms.ts:24-26; `OfflineFormsHook.LoadOvercounts`), and every delete lowers it, even when nothing was removed (hooks/useOfflineForms.ts:61; `OfflineFormsHook.DeleteTwiceDrifts`).
- The selector commits every fetch answer, whatever the current query is (components/AutocompleteSelect.tsx:65-79; `Autocomplete.StaleAnswerCommitted`).
- `isFormValid` demands a location and a description that is non-blank after trimming (hooks/useFormStore.ts:57-65). The submit guard checks neither (app/tabs/form.tsx:200-205; `FormScreen.GuardWeakerThanValidity`, `FormScreen.BlankDescriptionSavedAsError`).
- An online save does not clear the draft (app/tabs/form.tsx:312-316). Only closing the result modal does (app/tabs/form.tsx:229-232; `FormScreen.Screen.HandleConfirmSave`, `FormScreen.Screen.HandleModalClose`).
- An entry's id is the clock reading at save time (hooks/useOfflineForms.ts:36). Ids are therefore unique only when saves read strictly increasing clock values (`QueueSpec.SaveKeepsIdsUnique`, `QueueSpec.SameClockSameId`, `OfflineFormsScreen.SyncDropsTwin`).

## Model

| member | source | states |
|---|---|---|
| QueueSpec.NewEntryIdEncodesClock | contexts/OfflineFormsProvider.tsx:55-60 | a new entry's id reads back as the clock value it was made from, and its data is the saved payload |
| QueueSpec.Without | contexts/OfflineFormsProvider.tsx:75 | delete keeps exactly the entries whose id differs: it never grows the list, an entry is kept iff it was there and has another id, and each kept entry keeps its multiplicity |
| QueueSpec.WithoutKeepsOrder | contexts/OfflineFormsProvider.tsx:75 | delete keeps the survivors in their original order; an absent id leaves the list equal; a present id shrinks it |
| QueueSpec.WithoutIdempotent | contexts/OfflineFormsProvider.tsx:73-82 | deleting an id twice leaves the list that deleting it once left |
| QueueSpec.WithoutCommutes | contexts/OfflineFormsProvider.tsx:73-82 | deletes of two ids give the same list in either order |
| QueueSpec.ReplaceData | contexts/OfflineFormsProvider.tsx:86-88 | update keeps the list's length |
| QueueSpec.ReplaceDataKeepsShape | contexts/OfflineFormsProvider.tsx:86-88 | update changes only `data`, only on entries with the id; ids, titles, timestamps and order stay; an absent id changes nothing |
| QueueSpec.DeleteAfterUpdate | contexts/OfflineFormsProvider.tsx:73-98 | deleting an entry after updating it leaves what deleting it alone leaves |
| QueueSpec.UpdateTwice | contexts/OfflineFormsProvider.tsx:84-98 | the last of two updates of an id wins |
| QueueSpec.SaveKeepsIdsUnique | hooks/useOfflineForms.ts:35-42 | a save whose clock is later than every id already issued keeps ids unique |
| QueueSpec.SameClockSameId | hooks/useOfflineForms.ts:36 | two saves at the same clock reading give two entries with one id |
| QueueSpec.DistinctClocksDistinctIds | hooks/useOfflineForms.ts:36 | saves at different clock readings give different ids |
| QueueSpec.DeleteKeepsIdsUnique | hooks/useOfflineForms.ts:57 | delete keeps ids unique |
| QueueSpec.UpdateKeepsIdsUnique | hooks/useOfflineForms.ts:69-71 | update keeps ids unique |
| OfflineFormsProvider.ProviderQueue.constructor | contexts/OfflineFormsProvider.tsx:37-38 | the provider starts with an empty list and count 0 |
| OfflineFormsProvider.ProviderQueue.Load | contexts/OfflineFormsProvider.tsx:40-51 | an existing record becomes the list and its length the count; no record or a failed read changes nothing |
| OfflineFormsProvider.ProviderQueue.Save | contexts/OfflineFormsProvider.tsx:53-71 | one new entry is appended at the end after the whole list is stored; a failed write changes neither memory nor storage; count equals the length |
| OfflineFormsProvider.ProviderQueue.Delete | contexts/OfflineFormsProvider.tsx:73-82 | the list becomes the delete filter of the old list and is stored; count equals the length; a failed write changes nothing |
| OfflineFormsProvider.ProviderQueue.Update | contexts/OfflineFormsProvider.tsx:84-97 | the list becomes the update map of the old list and is stored; count untouched; a failed write changes nothing |
| OfflineFormsProvider.ProviderQueue.Clear | contexts/OfflineFormsProvider.tsx:99-107 | the record is removed, the list emptied and count zeroed; a failed removal changes nothing |
| OfflineFormsProvider.SaveThenReload | contexts/OfflineFormsProvider.tsx:40-71 | a fresh provider loading after a save sees the saved list, whose last entry carries the payload, with count in sync |
| OfflineFormsHook.HookQueue.constructor | hooks/useOfflineForms.ts:15-16 | each hook instance starts with an empty list and count 0 |
| OfflineFormsHook.HookQueue.Load | hooks/useOfflineForms.ts:18-31 | an existing record becomes the list and the count is its length plus one; no record or a failed read changes nothing |
| OfflineFormsHook.HookQueue.Save | hooks/useOfflineForms.ts:33-52 | as in the provider: append at the end after storing, count set to the new length, nothing changes on a failed write |
| OfflineFormsHook.HookQueue.Delete | hooks/useOfflineForms.ts:54-65 | the list is always filtered and the count always decremented; storage follows only when the unawaited write succeeds |
| OfflineFormsHook.HookQueue.Update | hooks/useOfflineForms.ts:67-80 | as in the provider: update map stored, count untouched |
| OfflineFormsHook.HookQueue.Clear | hooks/useOfflineForms.ts:82-90 | as in the provider: record removed, list empty, count 0, nothing changes on error |
| OfflineFormsHook.LoadOvercounts | hooks/useOfflineForms.ts:18-27 | right after a load the count is one more than the number of entries |
| OfflineFormsHook.DeleteTwiceDrifts | hooks/useOfflineForms.ts:54-62 | a second delete of the same id leaves the list as the first left it but lowers the count again |
| OfflineFormsHook.UnawaitedDeleteDiverges | hooks/useOfflineForms.ts:54-60 | a failed, unawaited delete write leaves memory and storage disagreeing |
| OfflineFormsHook.StaleInstanceRestoresDeleted | hooks/useOfflineForms.ts:33-62 | a save from a stale hook instance stores again an entry another instance deleted |
| Autocomplete.FilterItems | components/AutocompleteSelect.tsx:56-62 | the static filter keeps exactly the items of the list some key of which matches, each as often as it occurs in the list |
| Autocomplete.FilterItemsKeepsOrder | components/AutocompleteSelect.tsx:56-62 | the static filter keeps the list's order |
| Autocomplete.StaticFilter | components/AutocompleteSelect.tsx:48-63 | static mode: no data gives nothing; a blank query or no keys gives the data; otherwise an order-preserving sublist of exactly the matching items, each with its multiplicity in the data |
| Autocomplete.EmptyKeysFilterAll | components/AutocompleteSelect.tsx:55-62 | an empty key list with a non-blank query filters everything out |
| Autocomplete.KeyMatchesIgnoresCase | components/AutocompleteSelect.tsx:57-60 | matching is case-insensitive on both the value and the query |
| Autocomplete.FetchModeShowsFetched | components/AutocompleteSelect.tsx:48-51 | in fetch mode the list shown is the fetched list, whatever the query |
| Autocomplete.StepKeepsTimerForLatestQuery | components/AutocompleteSelect.tsx:84-91 | every event keeps the invariant "a pending timer exists only while open in fetch mode and carries the current query" |
| Autocomplete.RunKeepsTimerForLatestQuery | components/AutocompleteSelect.tsx:84-91 | any sequence of events keeps that invariant |
| Autocomplete.ReachableTimerForLatestQuery | components/AutocompleteSelect.tsx:84-91 | every reachable state satisfies it: only the latest query's timer can fire |
| Autocomplete.TimerFetchesCurrentQuery | components/AutocompleteSelect.tsx:86-88 | a firing timer fetches exactly the current query and leaves no timer |
| Autocomplete.TypingIssuesNoFetch | components/AutocompleteSelect.tsx:84-91 | any run of keystrokes issues no fetch; afterwards the query is the last typed and any pending timer is its |
| Autocomplete.TypingRestartsDebounce | components/AutocompleteSelect.tsx:84-91 | a new query replaces the pending timer by one for that query |
| Autocomplete.CloseCancelsTimer | components/AutocompleteSelect.tsx:84-91 | closing cancels any pending timer and issues nothing |
| Autocomplete.OpenFetchesDefaultWhenEmpty | components/AutocompleteSelect.tsx:93-97 | opening in fetch mode with nothing fetched fetches "" at once, turning loading on and clearing the error |
| Autocomplete.OpenIgnoredWhileLoading | components/AutocompleteSelect.tsx:120-121 | the selector cannot be opened while loading |
| Autocomplete.RespondOkReplaces | components/AutocompleteSelect.tsx:70-78 | a successful answer replaces the fetched list wholesale and ends loading |
| Autocomplete.RespondErrEmpties | components/AutocompleteSelect.tsx:72-78 | a failed answer empties the list, sets the error message and ends loading |
| Autocomplete.EmptiedListRefetchesDefault | components/AutocompleteSelect.tsx:93-97 | an answer that empties a non-empty list while open makes the initial-fetch effect fetch "" again |
| Autocomplete.StaleAnswerCommitted | components/AutocompleteSelect.tsx:65-79 | an answer for a query that is no longer current is still committed |
| Autocomplete.SelectClosesAndResets | components/AutocompleteSelect.tsx:99-103 | select hands the item on, closes, resets the query and leaves no timer |
| Autocomplete.ClearResetsQuery | components/AutocompleteSelect.tsx:105-108 | clear hands on null and resets the query, leaving open or closed as it was |
| Autocomplete.HighlightWithoutValue | components/AutocompleteSelect.tsx:184 | with nothing selected, exactly the rows without an id are highlighted |
| Autocomplete.Selector.constructor | components/AutocompleteSelect.tsx:40-44 | the selector starts closed, with an empty query and nothing fetched |
| Autocomplete.Selector.FetchDataCallback | components/AutocompleteSelect.tsx:65-69 | a fetch start equals the transition function's: loading on, error cleared, request issued |
| Autocomplete.Selector.RunEffects | components/AutocompleteSelect.tsx:84-97 | the two effects equal the transition function's |
| Autocomplete.Selector.Open | components/AutocompleteSelect.tsx:120-121 | the open button equals the Open transition |
| Autocomplete.Selector.Close | components/AutocompleteSelect.tsx:152-159 | closing equals the Close transition |
| Autocomplete.Selector.Type | components/AutocompleteSelect.tsx:172 | a keystroke equals the Type transition |
| Autocomplete.Selector.TimerFire | components/AutocompleteSelect.tsx:86-88 | the timer firing equals the TimerFire transition |
| Autocomplete.Selector.Respond | components/AutocompleteSelect.tsx:70-79 | a fetch answer equals the Respond transition |
| Autocomplete.Selector.Select | components/AutocompleteSelect.tsx:99-103 | select equals the Select transition and hands the item to the callback |
| Autocomplete.Selector.Clear | components/AutocompleteSelect.tsx:105-108 | clear equals the Clear transition and hands null to the callback |
| Autocomplete.Selector.ParentRender | components/AutocompleteSelect.tsx:84-97 | a parent re-render equals the ParentRender transition |
| FormStore.DatePrefix | hooks/useFormStore.ts:6 | today's date is a prefix of the ISO timestamp and holds no "T" |
| FormStore.DatePrefixOfTimestamp | hooks/useFormStore.ts:6 | for a date followed by "T" and a time, the prefix is exactly the date |
| FormStore.InitialDraft | hooks/useFormStore.ts:7-15 | the initial draft has no selection, photo or location, an empty description and today's date |
| FormStore.IsFormValidIff | hooks/useFormStore.ts:57-65 | valid iff asset, driver, bac and location are set and the description has a non-whitespace character |
| FormStore.InitialDraftNotValid | hooks/useFormStore.ts:45-65 | the initial draft, which every reset restores, is not valid |
| FormStore.BlankDescriptionNotValid | hooks/useFormStore.ts:61 | a description made only of whitespace (any length, any whitespace characters) never makes a draft valid |
| FormStore.Store.constructor | hooks/useFormStore.ts:7-15 | the store starts with the initial draft |
| FormStore.Store.UpdateAsset | hooks/useFormStore.ts:17-19 | only the asset changes |
| FormStore.Store.UpdateDriver | hooks/useFormStore.ts:21-23 | only the driver changes |
| FormStore.Store.UpdateBac | hooks/useFormStore.ts:25-27 | only the bac changes |
| FormStore.Store.UpdatePhoto | hooks/useFormStore.ts:29-31 | only the photo changes |
| FormStore.Store.UpdateDescription | hooks/useFormStore.ts:33-35 | only the description changes |
| FormStore.Store.UpdateLocation | hooks/useFormStore.ts:37-39 | only the location changes |
| FormStore.Store.UpdateDate | hooks/useFormStore.ts:41-43 | only the date changes |
| FormStore.Store.ResetForm | hooks/useFormStore.ts:45-55 | the draft becomes the initial draft whatever it was, and is then not valid |
| FormScreen.Address | app/tabs/form.tsx:183-185 | the address has no leading or trailing whitespace |
| FormScreen.AddressOfCityOnly | app/tabs/form.tsx:183-185 | missing street and region count as "" and leave no stray spaces |
| FormScreen.AddressOfFullPlacemark | app/tabs/form.tsx:183-185 | street, city and region are joined by single spaces |
| FormScreen.AcquireLocation | app/tabs/form.tsx:126-196 | a location comes only from a requested position, with its coordinates and the clock; a reverse geocode is asked only on native with a position |
| FormScreen.PermissionDeniedAsksNothing | app/tabs/form.tsx:157-158 | on native a refused permission gives no location and no position request |
| FormScreen.GeocodeFailureKeepsLocation | app/tabs/form.tsx:174-191 | a failing reverse geocode still yields the location, without an address |
| FormScreen.GeocodeGivesAddress | app/tabs/form.tsx:181-186 | with a geocode result the address comes from its first placemark |
| FormScreen.GeoPointRoundTrip | app/tabs/form.tsx:260-266 | the payload point reads back as (longitude, latitude), the RFC 7946 section 3.1.1 order; no location gives (0, 0) |
| FormScreen.CompanyOwnerOf | app/tabs/form.tsx:269 | the owner is the company owner's `_id` when truthy, else the company owner; undefined without a user |
| FormScreen.OfflineIsOnlinePlusTitle | app/tabs/form.tsx:237-308 | the offline payload is the online payload plus `title`, and stripping the title gives the online payload back |
| FormScreen.PayloadLocation | app/tabs/form.tsx:260-266 | the payload's `data.loc` is the draft's position as a GeoJSON Point, longitude first |
| FormScreen.GuardWeakerThanValidity | app/tabs/form.tsx:200-205 | every valid draft passes the submit guard, but the untrimmed guard passes a blank description that validity refuses |
| FormScreen.Screen.constructor | app/tabs/form.tsx:53-60 | the screen starts with every modal and flag down and assumes a connection |
| FormScreen.Screen.CheckAuth | app/tabs/form.tsx:79-89 | a session read from device storage sets the user; an absent record or a failed read sends the screen to the login page |
| FormScreen.Screen.NetInfoChange | app/tabs/form.tsx:93-100 | connected only when the listener reports true |
| FormScreen.Screen.HandleSubmit | app/tabs/form.tsx:198-227 | missing fields: result modal, no location request, draft untouched; otherwise a location goes into the draft and opens the confirmation, none opens the location alert; the locating flag ends down |
| FormScreen.Screen.HandleConfirmSave | app/tabs/form.tsx:234-338 | connected: only the server is called, with the session read from device storage, and the queue is untouched; disconnected: only the queue is called; the draft is never reset; saving ends down |
| FormScreen.Screen.SendOnline | app/tabs/form.tsx:312-316 | the stripped online payload is sent; success swaps the confirmation for the result modal, an error raises the alert |
| FormScreen.Screen.SaveOffline | app/tabs/form.tsx:317-331 | the offline payload is appended to the queue and the "saved locally" alert shows |
| FormScreen.Screen.HandleModalClose | app/tabs/form.tsx:229-232 | closing the result modal resets the draft |
| FormScreen.Screen.PressOfflineOk | app/tabs/form.tsx:322-329 | the alert's OK resets the draft and leaves the screen |
| FormScreen.Screen.HandleCancelConfirm | app/tabs/form.tsx:340-342 | cancel closes the confirmation |
| FormScreen.BlankDescriptionSavedAsError | app/tabs/form.tsx:198-232 | any non-empty whitespace-only description passes the guard and is sent as typed, and the result modal then shows its error variant |
| FormScreen.OfflineWriteFailureUnreported | app/tabs/form.tsx:317-331 | offline, a failed queue write still shows the "saved locally" alert and queues nothing |
| OfflineFormsScreen.FindById | app/tabs/offline-forms.tsx:91 | the lookup finds an entry iff one has the id, and returns the first such |
| OfflineFormsScreen.EditedData | app/tabs/offline-forms.tsx:93-96 | the edited payload has the new top-level description and keeps every other key |
| OfflineFormsScreen.EditLeavesCardText | app/tabs/offline-forms.tsx:89-120 | an edit leaves the nested description the card shows unchanged |
| OfflineFormsScreen.WithoutIgnoresData | app/tabs/offline-forms.tsx:64-66 | changing an entry's data in place does not change what deleting its id leaves |
| OfflineFormsScreen.ListScreen.constructor | app/tabs/offline-forms.tsx:28-29 | the screen starts with nothing being edited |
| OfflineFormsScreen.ListScreen.HandleSyncForm | app/tabs/offline-forms.tsx:54-72 | offline: an alert and no save call; online: the save uses the session read from device storage, the entry is deleted only after its save succeeded; a failed save keeps it queued (with its title stripped in memory) |
| OfflineFormsScreen.ListScreen.HandleSave | app/tabs/offline-forms.tsx:89-100 | an editing id that is found gets its data replaced by the edited copy; the editing id is then cleared; with none nothing happens |
| OfflineFormsScreen.ListScreen.HandleCancel | app/tabs/offline-forms.tsx:102-104 | cancel clears the editing id without touching the queue |
| OfflineFormsScreen.ListScreen.HandleDeleteForm | app/tabs/offline-forms.tsx:39-52 | delete only asks for confirmation |
| OfflineFormsScreen.ListScreen.HandleClearAll | app/tabs/offline-forms.tsx:74-87 | clear-all only asks for confirmation |
| OfflineFormsScreen.ListScreen.PressConfirm | app/tabs/offline-forms.tsx:48 | the confirming button performs the pending delete or clear, and nothing else reaches the queue |
| OfflineFormsScreen.ListScreen.PressCancel | app/tabs/offline-forms.tsx:44 | the cancel button closes the dialog |
| OfflineFormsScreen.SyncDropsTwin | app/tabs/offline-forms.tsx:54-72 | syncing one of two entries sharing an id sends one and deletes both |
| Api.GetAuthData | services/api.ts:25-33 | the stored session, or null when it is absent or the read fails |
| Api.SetAuthData | services/api.ts:17-23 | a successful write stores the session that a read then returns; a failed one changes nothing |
| Api.RemoveAuthData | services/api.ts:35-41 | a successful removal leaves no session to read |
| Api.Receive | services/api.ts:171-174 | a non-ok response throws the call's message; an ok one yields the parsed body |
| Api.ResultOrEmpty | services/api.ts:175 | any body other than null or undefined succeeds with its `result` when truthy, else an empty list; a null body throws |
| Api.MapAll | services/api.ts:270-277 | a map over the list keeps its length and order, and throws if any element throws |
| Api.MapDriver | services/api.ts:270-277 | the driver mapper throws exactly on a null or undefined element |
| Api.DriverFields | services/api.ts:270-277 | a driver's id is `_id` when truthy, else `id`; the other fields are copied |
| Api.DriverName | services/api.ts:272 | a driver's name is first and last name with one space, and no stray space when a part is empty, absent or null |
| Api.DriversKeepOrder | services/api.ts:269-277 | the driver list keeps the server's length and order |
| Api.MapBac | services/api.ts:322-328 | the bac mapper throws exactly on a null or undefined element |
| Api.BacDefaults | services/api.ts:322-328 | a bac's id is `_id`; a truthy name, location, capacity or type is copied, a falsy one becomes "Unnamed", "", 0 or "Point" |
| Api.BacWithoutProperties | services/api.ts:322-328 | a bac without properties gets every default |
| Api.BacsKeepOrder | services/api.ts:321-328 | the bac list keeps the server's length and order |
| Api.Authorized | services/api.ts:136-175 | no session: throw before any request; otherwise the request carries the token and body, and only an ok reply succeeds |
| Api.AssetFilterReadBack | services/api.ts:142-158 | the asset body is scoped to the owner and searches name and licensePlate for the sent term |
| Api.AssetSearch | services/api.ts:142-158 | the asset filter is added iff the trimmed term is non-empty, and carries the untrimmed term |
| Api.DriverFilterReadBack | services/api.ts:235-250 | the driver body is scoped to the owner and searches first_name and last_name for the sent term |
| Api.DriverSearch | services/api.ts:235-250 | the driver filter is added iff the trimmed term is non-empty, and carries the untrimmed term |
| Api.BacFilterReadBack | services/api.ts:287-300 | the bac body is scoped to the owner and point geometries and searches `properties.Nom` for the sent term |
| Api.BacSearch | services/api.ts:287-300 | the bac query always has the owner and point scope; the name filter is added iff the trimmed term is non-empty |
| Api.PaddedTermSearchesAsTyped | services/api.ts:297-300 | surrounding whitespace does not decide whether a term searches, but the term is sent as typed |
| Api.StripTitle | services/api.ts:333-335 | exactly the title key is removed; every other key keeps its value |
| Api.StripTitleIdempotent | services/api.ts:333-335 | stripping twice is stripping once, and a payload without a title is unchanged |
| Api.SaveFormData | services/api.ts:331-357 | the argument loses its title before anything else, and the request sends the stripped object |
| Api.NoRequestWithoutAuth | services/api.ts:136-140 | with no session, every authorised call throws "No auth data found" and sends nothing |
| Api.SearchWithoutOwnerThrows | services/api.ts:142-145 | a session user without a company owner makes the searches throw before sending |
| Api.QueryAssetsOutcome | services/api.ts:135-176 | the asset request carries the token and body; a non-ok answer throws; an ok answer without `result` gives [] |
| Api.Login | services/api.ts:44-66 | the credentials are sent; the session is stored only when the ok answer says `success` |
| Api.Logout | services/api.ts:68-94 | no session: throw before sending; the session is removed only when the ok answer says `success` |
| Api.LoginThenGet | services/api.ts:44-60 | after a successful login, reading the session gives the returned one |

## Left out

- Screen rendering, styles, modals' layout and navigation beyond a `left` flag.
- The position, camera and network-reachability device services: their answers are parameters.
- Floating point: coordinates, accuracy and timestamps are integers; date formatting is not modelled.
- Real time: the 500 ms debounce is a pending timer fired by an event; geolocation timeouts are not modelled.
- Async interleavings: each queue operation is atomic; the stale render closures the queue
  functions read are modelled only as separate hook instances per screen.
- JSON text: serialisation is the identity; a stored record that does not parse is a failed read.
- The mock-data fallbacks of `getAssets` and `getDrivers` in services/api.ts: they are unused development stubs.
- `checkInternetConnection` (utils/network.ts) is not part of this model; its answer is the `connected` parameter.
- Text.LowerChar: lower-casing covers the Basic Latin and Latin-1 letters only, not the whole of Unicode.
- Autocomplete.Selector: the `onSelect` callback is modelled by the value the method returns, not by a call into the parent.
- OfflineFormsScreen.ListScreen.HandleSyncForm: takes the entry by its index in the hook's list; the screen passes the entry object itself.
