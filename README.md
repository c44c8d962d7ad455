# Car marketplace front end: a Dafny model

This project models the client-side logic of a React car marketplace:
- the catalog cache of cars, with the dropdown lookup lists derived from it;
- the favourites (watch list) store, with its optimistic toggle and rollback;
- the session held in a JWT;
- the search and home-page filters, the sort by price, paging and the pagination bar;
- the image carousel of the car page and the hero slider of the landing page;
- the watch-list page;
- the listing and edit forms, with their validators;
- the login and sign-up pages;
- the owner's car list and the profile dashboard with its chat.

Each source file's state becomes a Dafny `class` whose methods are that component's handlers and effects. Its pure derivations (filters, lookups, validators, page slices) become functions. Lemmas state the properties the application relies on.

Requests, the clock, `confirm` dialogs, the JWT decoder and the chat transport are not modelled as behaviour. They appear only as parameters: an outcome datatype (`Fetched`, or a per-endpoint reply type), a boolean, a number, or a function argument. Navigation is recorded in a `navigatedTo` field.

Modules, one per file:
- `Js` (js.dfy) and `Seqs` (seqs.dfy) hold the JavaScript semantics the code relies on, such as truthiness, `parseInt`/`parseFloat`, `String(n)`, `%`, `slice`, `trim` and `Array.prototype.filter`.
- `Catalog` (catalog.dfy) covers src/Components/CarContext.jsx.
- `Favourites` (favourites.dfy) covers src/Components/FavouriteContext.jsx.
- `Session` (session.dfy) covers src/Components/AuthContext.jsx.
- `Filters` (filters.dfy) is the filter logic that src/car/Search.jsx and src/Components/Index-Main.jsx share.
- `Search` (search.dfy) and `IndexMain` (index_main.dfy) cover those two pages.
- `Pagination` (pagination.dfy) covers src/Components/pagination.jsx.
- `Wrap` (wrap.dfy) holds the wrap-around steps shared by `CarView` (view.dfy, src/car/View.jsx) and `HeroSlider` (hero.dfy, src/car/index.jsx).
- `WatchList` (watchlist.dfy) covers src/car/WatchList.jsx.
- `CarForm` (carform.dfy) holds the form state shared by `Create` (create.dfy, src/car/Create.jsx) and `Edit` (edit.dfy, src/car/Edit.jsx).
- `Login` (login.dfy) covers src/car/Login.jsx.
- `Signup` (signup.dfy) covers src/car/Sign-up.jsx.
- `MyCars` (mycars.dfy) covers src/car/Mycars.jsx.
- `Profile` (profile.dfy) covers src/car/profile.jsx.

## Model

| member | source | states |
|---|---|---|
| Catalog.PresentEntries | src/Components/CarContext.jsx:9 | the entries that are not null, in order, never more than the input |
| Catalog.UniqueFromIsSubsequence | src/Components/CarContext.jsx:7-10 | the filter with a `seen` set keeps a subsequence of the present entries |
| Catalog.UniqueFromIdsDistinct | src/Components/CarContext.jsx:7-10 | every kept entry has a truthy id outside `seen`, and kept ids are pairwise distinct |
| Catalog.UniqueFromSource | src/Components/CarContext.jsx:7-10 | each kept entry is an input entry that is the first with its id |
| Catalog.UniqueFromCovers | src/Components/CarContext.jsx:7-10 | each input entry with a truthy id not yet seen has its id in the output |
| Catalog.UniqueByIdIsSubsequence | src/Components/CarContext.jsx:7-10 | uniqueById returns a subsequence of its input, in the original order, without null entries |
| Catalog.UniqueByIdDistinct | src/Components/CarContext.jsx:7-10 | output ids are truthy (null, missing and 0 ids are dropped) and pairwise distinct |
| Catalog.UniqueByIdFirstOccurrence | src/Components/CarContext.jsx:7-10 | the entry kept for an id is the first input entry with that id |
| Catalog.UniqueByIdCovers | src/Components/CarContext.jsx:7-10 | every input entry with a truthy id has its id represented in the output |
| Catalog.Project | src/Components/CarContext.jsx:34-38 | `data.map(project)` keeps length and position |
| Catalog.LookupListSpec | src/Components/CarContext.jsx:34-38 | a dropdown list holds records some car carries, with distinct truthy ids, and covers every car's record with a truthy id |
| Catalog.TruthyFuelTypes | src/Components/CarContext.jsx:39 | the fuel strings kept are exactly the truthy `fuelType` values of the cars |
| Catalog.FuelTypes | src/Components/CarContext.jsx:39-40 | one `{id: name, name: name}` option per distinct name, in the same order |
| Catalog.FuelTypesSpec | src/Components/CarContext.jsx:39-40 | the names are the distinct truthy fuel strings, each placed by its first occurrence (first-seen order), and an option is offered iff its id equals its name and some car carries that fuel type |
| Seqs.DedupFirstSeen | src/Components/CarContext.jsx:39 | dropping repeats as a `Set` does keeps each element at its first occurrence, in input order |
| Catalog.FindById | src/Components/CarContext.jsx:53 | `find` returns a cached car whose id equals the parsed key, and fails only when no car matches; NaN matches nothing |
| Catalog.FindByIdIsFirst | src/Components/CarContext.jsx:53 | the car found is the first with that id |
| Catalog.MergeThenHit | src/Components/CarContext.jsx:72-77 | after the append-if-absent merge the fetched id is found, the old list is a prefix, and at most one car is added |
| Catalog.CarCache.constructor | src/Components/CarContext.jsx:15-23 | the cache starts empty and loading, with empty lookup lists |
| Catalog.CarCache.FetchAllCars | src/Components/CarContext.jsx:24-49 | cars and every lookup list are set, and derived from the cars, only for an array body; otherwise they stay as they were; loading ends |
| Catalog.CarCache.GetCarById | src/Components/CarContext.jsx:51-84 | a cached id returns that car with no request and no change; otherwise the fetched car is returned and merged if absent, and a failed fetch returns null and leaves the cache unchanged |
| Favourites.WithoutMembers | src/Components/FavouriteContext.jsx:67 | removing an id drops every occurrence of it, keeps every other id, and keeps the order |
| Favourites.RequestFor | src/Components/FavouriteContext.jsx:71-82 | a favourite is removed by DELETE on its URL with no body; any other id is added by POST with `{carId}` |
| Favourites.OptimisticFlips | src/Components/FavouriteContext.jsx:64-67 | the optimistic step flips the membership of that id and of no other |
| Favourites.RollbackRestoresMembership | src/Components/FavouriteContext.jsx:90 | a failed toggle restores the membership of every id |
| Favourites.RollbackMovesToEnd | src/Components/FavouriteContext.jsx:90 | a failed removal re-appends the id at the end: [7, 8] comes back as [8, 7] |
| Favourites.RollbackExactWhenLast | src/Components/FavouriteContext.jsx:90 | with distinct ids, the rollback is exact when the id was absent or last |
| Favourites.OptimisticKeepsDistinct | src/Components/FavouriteContext.jsx:67 | toggling keeps a list of distinct ids distinct |
| Favourites.WithoutDistinct | src/Components/FavouriteContext.jsx:67 | removal keeps a list of distinct ids distinct |
| Favourites.ToggleTwiceRestores | src/Components/FavouriteContext.jsx:67 | two successful toggles of a non-favourite give back the list |
| Favourites.FavouriteStore.constructor | src/Components/FavouriteContext.jsx:14-15 | no favourites, not loading |
| Favourites.FavouriteStore.OnAuthChange | src/Components/FavouriteContext.jsx:21-55 | signed out empties the list; signed in takes the fetched list, or empties it on failure, and ends loading |
| Favourites.FavouriteStore.ToggleFavourite | src/Components/FavouriteContext.jsx:56-92 | signed out sends nothing and changes nothing; otherwise it sends the request for the old membership, and the list is the optimistic one on success and the rollback on failure |
| Session.AuthStore.constructor | src/Components/AuthContext.jsx:17-18 | the token starts as the stored one, with no user |
| Session.AuthStore.Logout | src/Components/AuthContext.jsx:57-61 | the token is cleared and the page goes to /login |
| Session.AuthStore.Login | src/Components/AuthContext.jsx:49-55 | the token is the new one, and navigation goes to the page the user came from, or "/" |
| Session.AuthStore.TokenEffect | src/Components/AuthContext.jsx:22-48 | no token clears user and storage; a valid token sets the user from its claims and stores it; an undecodable or expired token logs out |
| Session.AuthStore.Settle | src/Components/AuthContext.jsx:22-61 | once settled, the user is signed in iff the starting token was valid; then the user comes from its claims and storage holds it; otherwise storage is empty and an invalid token went to /login |
| Filters.EmptyFilters | src/car/Search.jsx:26-30 | the ten filter keys, all "" |
| Filters.Cascade | src/car/Search.jsx:37-45 | the named key takes the value, a new maker clears the model and a new state clears the city, and nothing else changes |
| Filters.EmptyFiltersKeepAll | src/car/Search.jsx:56-69 | with every filter empty, all cars are kept in order |
| Filters.FilterCarsSpec | src/car/Search.jsx:56-69 | the filtered list is a subsequence, and a car is kept exactly when it passes each filter |
| Filters.FuelFilterExcludesAll | src/car/Search.jsx:67 | a fuel filter other than "" and "undefined" excludes every car |
| Filters.ChildOptionsSpec | src/Components/Index-Main.jsx:72-73 | the model (city) options are exactly the children whose parent id is the selected one, in order |
| Filters.ChildOptionsAgree | src/car/Search.jsx:139-140 | the search page's looser parent test gives the same options unless the selection is the text "undefined" |
| Search.Insert | src/car/Search.jsx:71-75 | inserting into the sorted list adds exactly that car |
| Search.InsertSorted | src/car/Search.jsx:71-75 | insertion keeps the list ordered by price |
| Search.SortByPriceSpec | src/car/Search.jsx:71-75 | the sort by price yields a list ordered by the comparator that is a permutation of its input |
| Search.FilteredCarsSpec | src/car/Search.jsx:56-78 | the results are a permutation of the filtered cars, ordered ascending or descending by price as chosen, and in catalog order otherwise |
| Search.TotalPages | src/car/Search.jsx:84 | `Math.ceil(n / 20)`: the pages cover n cars and the last page is not empty |
| Search.PageOf | src/car/Search.jsx:85-89 | page p, counted from 1, is the slice of 20 cars starting at (p - 1) * 20, cut at the end; page 0 is empty |
| Search.PagesUpToPrefix | src/car/Search.jsx:85-89 | pages 1 to k together are the first k * 20 cars |
| Search.PagesPartition | src/car/Search.jsx:84-89 | pages 1 to totalPages together are exactly the results |
| Search.LastPageNeverShown | src/car/Search.jsx:84-89 | after the bar's first click, the pages reached are 0 to totalPages - 1, so the cars of the last page are never shown |
| Search.SinglePageNextIsEnabled | src/car/Search.jsx:34 | with one page the bar's Next is enabled at page 1 and leads to an empty page 2 |
| Search.SearchPage.constructor | src/car/Search.jsx:26-34 | empty filters, no sort order, page 1 |
| Search.SearchPage.HandleFilterChange | src/car/Search.jsx:37-45 | the filters cascade and the page returns to 1 |
| Search.SearchPage.ResetFilters | src/car/Search.jsx:47-54 | every filter becomes "" and the page returns to 1 |
| Search.SearchPage.SetSortOrder | src/car/Search.jsx:80-82 | the order is set, and the page returns to 1 only when the order changed |
| Search.SearchPage.SetCurrentPage | src/car/Search.jsx:243-246 | the bar's request becomes the current page |
| Search.SearchPage.Results | src/car/Search.jsx:56-78 | the results for the page's filters and order hold only catalog cars that pass every filter |
| Search.SearchPage.Shown | src/car/Search.jsx:85-89 | at most 20 cars are shown, and from page 1 on they are all results |
| Search.SearchPage.Bar | src/car/Search.jsx:243-246 | the bar has as many numbered buttons as the results have pages, matching them in count only, and Last asks for page totalPages - 1, which this page, counting from 1, shows as the next-to-last page |
| IndexMain.HomePage.constructor | src/Components/Index-Main.jsx:7-11 | empty filters |
| IndexMain.HomePage.HandleFilterChange | src/Components/Index-Main.jsx:19-27 | the same cascade as the search page |
| IndexMain.HomePage.ResetFilters | src/Components/Index-Main.jsx:29-36 | every filter becomes "" |
| IndexMain.HomePage.Results | src/Components/Index-Main.jsx:38-50 | the listed cars are a subsequence of the catalog, and a car is listed iff it passes every filter |
| IndexMain.HomePage.ModelOptions | src/Components/Index-Main.jsx:72-73 | the model options are the models, in order, whose maker is the selected one |
| IndexMain.HomePage.CityOptions | src/Components/Index-Main.jsx:90-91 | the city options are the cities, in order, whose state is the selected one |
| IndexMain.ResetListsAll | src/Components/Index-Main.jsx:38-50 | after a reset the home page lists every car in order |
| Pagination.Render | src/Components/pagination.jsx:7-51 | First asks for page 0 and Prev for the page before, both disabled on page 0; Next and Last are disabled on the last page; button i asks for page i and shows i + 1 |
| Pagination.HighlightUnique | src/Components/pagination.jsx:23-35 | exactly one button is highlighted when the page is in range, none otherwise |
| Pagination.RequestsStayInRange | src/Components/pagination.jsx:11-44 | from a page in range, every enabled button asks for a page in range |
| Wrap.NextIndex | src/car/View.jsx:30-34 | one step forward stays in range and wraps from the last index to 0 |
| Wrap.PrevIndex | src/car/View.jsx:36-42 | one step back stays in range and wraps from 0 to the last index |
| Wrap.StepsAreInverse | src/car/View.jsx:30-42 | on an index in range, a step back undoes a step forward, and the reverse |
| CarView.CarFor | src/car/View.jsx:9-15 | nothing while loading; otherwise a cached car whose id equals the parsed route id, and none only when no car has it |
| CarView.CarForIsFirst | src/car/View.jsx:15 | the car shown is the first with that id |
| CarView.CarImages | src/car/View.jsx:21-23 | the image paths of the car in order, or [] without car or images |
| CarView.Carousel.constructor | src/car/View.jsx:18 | the carousel starts at index 0 |
| CarView.Carousel.ShowCar | src/car/View.jsx:26-28 | a different car resets the index to 0, and the same car keeps it |
| CarView.Carousel.HandleNext | src/car/View.jsx:30-34 | with images, one wrapping step forward that stays in range; without images, no change |
| CarView.Carousel.HandlePrev | src/car/View.jsx:36-42 | with images, one wrapping step back that stays in range; without images, no change |
| HeroSlider.Slider.constructor | src/car/index.jsx:8-9 | the first of two slides |
| HeroSlider.Slider.HandleNext | src/car/index.jsx:23-25 | moves to the other slide |
| HeroSlider.Slider.HandlePrev | src/car/index.jsx:27-29 | moves to the other slide |
| HeroSlider.Slider.Tick | src/car/index.jsx:15-21 | the five-second tick takes the same step as Next |
| HeroSlider.TwoSlidesNextIsPrev | src/car/index.jsx:9-29 | with two slides, Next and Prev are the same step, each its own inverse |
| WatchList.FavouriteCarsSpec | src/car/WatchList.jsx:13 | the favourite cars keep the catalog order, and a car is listed iff its id is a favourite |
| WatchList.OrphanIdsIgnored | src/car/WatchList.jsx:13 | favourite ids that match no cached car make no difference |
| CarForm.ApplyChange | src/car/Create.jsx:103-114 | a `feature_<f>` input sets feature f to the check box state; any other input sets its field; nothing else changes |
| CarForm.FeatureNameOfInput | src/car/Create.jsx:105-106 | the box named "feature_" + f toggles feature f, when f does not contain "feature_" again |
| CarForm.GenerateYearOptions | src/car/Create.jsx:7-14 | the years from the current one down to 1990, newest first, both ends included, or none before 1990 |
| CarForm.ChangesKeepKeysOut | src/car/Create.jsx:103-114 | no sequence of changes from a page's inputs adds a field that no input is named after |
| Create.InitialForm | src/car/Create.jsx:16-40 | the eleven fields are "", except the phone, which is " "; the ten features are off |
| Create.LeadingSeparator | src/car/Create.jsx:68 | an optional `[-. ]` at the head of the text |
| Create.ParsePhone | src/car/Create.jsx:68 | a match is a well-formed number that spells the text |
| Create.ParseFromArea | src/car/Create.jsx:68 | the matcher after the optional "(": a match spells the rest of the text |
| Create.ParseFromClose | src/car/Create.jsx:68 | the matcher after the area code: a match spells the rest of the text |
| Create.ParseLine | src/car/Create.jsx:68 | the matcher after the exchange: a match spells the rest of the text |
| Create.ParsePhoneOfSpell | src/car/Create.jsx:68 | every well-formed number is found by the matcher, which is therefore complete |
| Create.IsPhoneIff | src/car/Create.jsx:68 | the pattern accepts a text exactly when some well-formed number spells it |
| Create.CreateCheckSpec | src/car/Create.jsx:41-88 | no check fails exactly when every field is truthy, the price parses above 0 or not at all, the mileage is not negative, the phone matches, the description has 20 characters or more, and there is an image |
| Create.CreateCheckPasses | src/car/Create.jsx:41-88 | a single check passes exactly when its field's requirement holds |
| Create.PassingFormIsAcceptable | src/car/Create.jsx:41-88 | a form on which no check fails meets every field's requirement |
| Create.AcceptableFormPasses | src/car/Create.jsx:41-88 | a form meeting every field's requirement fails no check |
| Create.EveryFieldChecked | src/car/Create.jsx:41-88 | every field is checked, and only the image check is not a form check |
| Create.ValidateForm | src/car/Create.jsx:41-88 | the errors hold exactly the failing checks, each with its message |
| Create.NameKeysAreNotInputs | src/car/Create.jsx:45-51 | the six `*Name` keys are not keys of the form |
| Create.ValidatorRejectsEveryFormState | src/car/Create.jsx:45-51 | after any changes made through the page's inputs, the validator reports all six `*Name` fields as required |
| Create.CreatePage.constructor | src/car/Create.jsx:95-99 | the initial form, no files or previews, not submitting, no error |
| Create.CreatePage.HandleChange | src/car/Create.jsx:103-114 | the form takes the change |
| Create.CreatePage.HandleImageFileChange | src/car/Create.jsx:116-122 | no files changes nothing; otherwise the files and their preview URLs are appended and stay parallel |
| Create.CreatePage.HandleRemovePreviewImage | src/car/Create.jsx:124-128 | the file and the preview at that index go, and the pairs at other positions are kept |
| Create.CreatePage.HandleSubmit | src/car/Create.jsx:130-187 | without a token, the login error and no request; otherwise the unvalidated post with its 401, not-ok and rejection messages; once created, one upload per file and navigation to /view/id unless an upload is rejected |
| Edit.InitialEditForm | src/car/Edit.jsx:14-27 | the eleven keys of `initialCarState` other than `features` are all "", with no feature |
| Edit.NumberField | src/car/Edit.jsx:57-58 | a number field or "": 0 becomes "", any other number becomes text that parses back to it |
| Edit.EditFormOf | src/car/Edit.jsx:50-65 | the mapping fails exactly when a nested record it reads unguarded is null; otherwise it fills the eleven input keys from the car, with its features or none |
| Edit.LoadedPhone | src/car/Edit.jsx:63 | the loaded form holds the owner's phone under "phoneNo" and has no "phoneno" |
| Edit.LoadedNumbers | src/car/Edit.jsx:57-58 | the loaded price and mileage parse back to the car's, and a 0 loads as "" |
| Edit.ImagesOf | src/car/Edit.jsx:67 | image i has id i and the i-th URL; no URLs gives no images |
| Edit.EditCheckAgreesWithCreate | src/car/Edit.jsx:87-112 | the edit checks fail on the same fields as the listing checks, except that the phone check does not test the pattern |
| Edit.ValidateEditForm | src/car/Edit.jsx:87-112 | reading the length of missing images throws; otherwise the errors hold exactly the failing checks, with the edit messages |
| Edit.WithImageCheck | src/car/Edit.jsx:109 | the image check adds exactly its own error to those of the form checks |
| Edit.PhoneAlwaysMissing | src/car/Edit.jsx:63-104 | after a load and any changes made through the inputs, the phone check always fails |
| Edit.EditPage.constructor | src/car/Edit.jsx:36-40 | the initial form, no images, loading, no errors |
| Edit.EditPage.LoadCar | src/car/Edit.jsx:42-74 | an id that does not parse gives "Invalid Car ID." and sends no request; otherwise the car comes through the cache, which sends a request exactly on a miss and merges a fetched car, and is otherwise unchanged; a missing car gives "Car not found."; a null nested record leaves the page loading; otherwise the form and images are loaded |
| Edit.EditPage.HandleChange | src/car/Edit.jsx:76-84 | the form takes the change |
| Edit.EditPage.HandleSubmit | src/car/Edit.jsx:115-147 | validation throws before any request, so nothing is sent, loading stays on and no error is shown |
| Edit.EditPage.HandleImageUpload | src/car/Edit.jsx:149-168 | without a file nothing changes; an uploaded image is appended; a failure sets "Image upload failed." or the rejection's message; loading ends |
| Edit.EditPage.HandleImageDelete | src/car/Edit.jsx:170-183 | after confirmation the image is removed, and a failure restores the exact list and sets the error |
| Edit.DeleteKeepsOthers | src/car/Edit.jsx:173 | a delete removes exactly the images with that id and keeps the others in order |
| Login.ValidateFieldAccepts | src/car/Login.jsx:31-45 | an email is accepted iff it matches the pattern, a password iff it has six characters or more, and other fields always |
| Login.CollectErrors | src/car/Login.jsx:70-76 | the errors are exactly the failing fields, with their messages |
| Login.LoginPage.constructor | src/car/Login.jsx:11-28 | empty fields and errors, not loading, and the redirect's error shown when there is one |
| Login.LoginPage.HandleChange | src/car/Login.jsx:48-55 | the field takes the value, and its shown error is cleared |
| Login.LoginPage.HandleBlur | src/car/Login.jsx:58-62 | the field's error becomes its validation message |
| Login.LoginPage.HandleLoginSubmit | src/car/Login.jsx:65-108 | a failing field blocks the request and shows exactly the failing fields; otherwise a token in an ok answer logs in and navigates back, and every other outcome becomes the page's error |
| Login.BlurredFormValidIff | src/car/Login.jsx:111 | once both fields show their own validation message, the submit button is enabled iff a submit would not be blocked |
| Login.ClearedErrorEnablesBlockedSubmit | src/car/Login.jsx:48-55 | typing clears a shown error without validating, so a filled form with an email the pattern rejects enables the button, and its submit is blocked |
| Login.UnblockedSubmitIsValid | src/car/Login.jsx:65-81 | a request that is sent carries a matching email and a password of six characters or more |
| Signup.IsValidEmailIff | src/car/Sign-up.jsx:29 | the positional test agrees with the anchored pattern in both directions |
| Signup.ValidEmailMatches | src/car/Sign-up.jsx:29 | an address the positional test accepts is three segments joined by '@' and '.' |
| Signup.SegmentsAreValidEmail | src/car/Sign-up.jsx:29 | three segments joined by '@' and '.' pass the positional test |
| Signup.ValidEmailIsLoose | src/car/Sign-up.jsx:29 | an address the sign-up page accepts is also accepted by the login page's pattern |
| Signup.SignupError | src/car/Sign-up.jsx:36-49 | "All fields are required." iff a field is empty; then the email message iff the pattern fails; then "Passwords do not match." iff the passwords differ; no error iff every field is filled, the email matches and the passwords are equal, and an accepted email also passes the login pattern |
| Signup.SignupPage.constructor | src/car/Sign-up.jsx:7-17 | six empty fields, not loading, no error |
| Signup.SignupPage.HandleChange | src/car/Sign-up.jsx:24-27 | the field takes the value |
| Signup.SignupPage.HandleSignup | src/car/Sign-up.jsx:31-88 | a validation failure sends nothing; otherwise the payload joins the names and drops the repeated password; success goes to "/" and every failure becomes the error |
| MyCars.StatusError | src/car/Mycars.jsx:31-36 | 401 and 403 give the authentication message and every other status that is not ok the generic one; an ok status gives none |
| MyCars.WithoutCarSpec | src/car/Mycars.jsx:70 | a delete removes exactly the cars with that id, keeps the others in order, and shortens the list iff such a car was there |
| MyCars.FilterShorterIff | src/car/Mycars.jsx:70 | filtering drops something exactly when some car fails the test |
| MyCars.MyCarsPage.constructor | src/car/Mycars.jsx:7-9 | no cars, loading, no error |
| MyCars.MyCarsPage.Load | src/car/Mycars.jsx:14-49 | without a token, the login error and no request; otherwise a rejection or a failing status becomes the error and an ok answer replaces the list; loading ends |
| MyCars.MyCarsPage.HandleDelete | src/car/Mycars.jsx:52-76 | a declined confirmation sends nothing; success drops the car, and failure keeps the list and sets the error |
| Profile.DashboardError | src/car/profile.jsx:60-62 | the first answer that is not ok, in the order profile, cars, conversations, gives its message; none when all are ok |
| Profile.Toggle | src/car/profile.jsx:156-161 | the named section is present afterwards and no other key is added or removed |
| Profile.ToggleSpec | src/car/profile.jsx:156-161 | the named section flips (a missing one becomes shown), the others are unchanged, and toggling twice restores a present section |
| Profile.CanSendIff | src/car/profile.jsx:137 | the send guard holds iff the input has a character that is not white space, a client exists, is connected, and a chat is active |
| Profile.ProfilePage.constructor | src/car/profile.jsx:18-39 | the initial profile, no cars, chats or messages, loading, and all three sections shown |
| Profile.ProfilePage.LoadDashboard | src/car/profile.jsx:42-79 | without a token, the login error and no request; otherwise a rejection or the first failing answer becomes the error, and only three ok answers set the profile, cars and conversations; loading ends |
| Profile.ProfilePage.StartClient | src/car/profile.jsx:82-105 | a client exists once a token and a user were present |
| Profile.ProfilePage.OnConnect | src/car/profile.jsx:88-89 | the client is connected |
| Profile.ProfilePage.OnDisconnect | src/car/profile.jsx:101 | the client is not connected |
| Profile.ProfilePage.OnMessageReceived | src/car/profile.jsx:90-98 | an inbound message is appended iff a chat is active and it comes from that contact; the active chat is unchanged |
| Profile.ProfilePage.SelectConversation | src/car/profile.jsx:118-134 | choosing the active contact does nothing; otherwise it becomes active and the history replaces the messages, or they stay empty and the error is set |
| Profile.ProfilePage.SetInputText | src/car/profile.jsx:262 | the input takes the typed value |
| Profile.ProfilePage.SendMessage | src/car/profile.jsx:136-153 | only under the guard, the untrimmed message from the user to the active contact is published and appended with its time, and the input is cleared; otherwise nothing changes |
| Profile.ProfilePage.ToggleSection | src/car/profile.jsx:156-161 | the sections become the toggled dictionary |
| Js.TrimNonEmptyIff | src/car/profile.jsx:137 | `s.trim()` is truthy iff s has a character that is not white space |
| Js.FailureMessage | src/car/Edit.jsx:178-180 | a non-ok status gives the message the handler throws, and a rejection gives its own message |

## Defects kept as written

The model follows the code where it is wrong. Each of these is stated by a lemma or a contract:
- The fuel filter compares `String(car.fuelType?.id)` with the selection, but `fuelType` is a string, so the test always sees "undefined". Any other non-empty fuel filter excludes every car (`Filters.FuelFilterExcludesAll`).
- The search page numbers pages from 1, while the pagination bar numbers them from 0:
  - the last page's cars can never be reached through the bar (`Search.LastPageNeverShown`);
  - with a single page, Next is enabled and leads to an empty page (`Search.SinglePageNextIsEnabled`).
- A failed removal of a favourite re-appends the id at the end of the list (`Favourites.RollbackMovesToEnd`).
- The listing page's validator is never called, and it checks `*Name` keys that the form never holds (`Create.ValidatorRejectsEveryFormState`).
- The edit page calls its validator without the images, so reading their length throws and no update is ever sent (`Edit.EditPage.HandleSubmit`, `Edit.ValidateEditForm`). Even with the images, the phone is loaded under "phoneNo" but checked under "phoneno", so the phone check always fails (`Edit.PhoneAlwaysMissing`).

## Left out

- Requests, JSON decoding, `Promise.all` fan-out, the STOMP/SockJS chat client, `alert`, `confirm`, `navigate`, scrolling and `localStorage`: each appears only as a parameter, a flag or a recorded field. A body that fails to decode as JSON is not a separate outcome, except where the code gives it its own message (the listing page's failed post).
- Asynchronous interleavings and stale closures, such as two toggles reading the same old list or a response arriving after a newer request: every handler is modelled as running to completion on the state it starts from.
- Rendering: JSX, CSS classes, the loading and error screens, the email field's focus on the sign-up page, and the edit page's loading condition (src/car/Edit.jsx:185).
- Catalog.FindById: `parseInt` is modelled on decimal text without radix prefixes, and `parseFloat` without exponents or "Infinity"; prices, years and mileage are integers.
- Login.ValidateFieldAccepts: string lengths count characters, not UTF-16 code units, so a password of three emoji (JavaScript length 6) is rejected by the model and accepted by the page.
- Create.CreateCheckSpec, Create.ValidateForm and Edit.ValidateEditForm: the description's length counts characters, not UTF-16 code units, so a description of ten emoji (JavaScript length 20) fails the model's check and passes the page's.
- Edit.EditPage.HandleSubmit: the PUT request and its success and failure paths are not modelled, because the TypeError thrown by validation makes them unreachable.
- Create.CreatePage.HandleSubmit: the payload's number conversions are not modelled; what is posted is the form as it stands.
- CarForm.ApplyChange: a field input named "features" would replace the features object in the source; the model keeps fields and features apart.
- Search.SortByPriceSpec: stability of the sort is not stated; the model is a stable insertion sort.
- The edit page's own `generateYearOptions` (src/car/Edit.jsx:6-11) is the same loop as the listing page's and is modelled once, by `CarForm.GenerateYearOptions`; the current year is a parameter.
- Create.ValidateForm and Edit.ValidateEditForm: each is modelled as a loop over an ordered list of checks, recording errors in a dictionary keyed by field.
- Session.AuthStore.TokenEffect: the clock is an integer number of milliseconds, so the division `Date.now() / 1000` is compared exactly, not in floating point.
- WatchList.IsLoading has no contract: it is the disjunction of the two loading flags.
- Profile.ProfilePage.SendMessage: reading `user.id` when the user has signed out after connecting would throw; the user's id is taken as a parameter.
- Profile: conversation partners are taken to have numeric ids. The undefined `handleDeleteCar` reference (src/car/profile.jsx:296) throws when clicked and is not modelled.
- The `date-fns` date formatting and the thumbnail fallbacks of the car lists.
