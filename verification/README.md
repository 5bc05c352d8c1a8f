# ServEase front end: location picker, session and API state

This project models the state logic of the ServEase marketing front end.
The front end is a home-services marketplace web UI, and the model covers:

- the **location picker**: a case-insensitive search over ten preset cities,
  a grid of those cities, and "use current location" through the platform's
  position service and a reverse-geocoding lookup;
- the **session store** (`AuthProvider` / `useAuth`): one logged-in flag;
- the **API operation store** (`ApiProvider`): four async wrappers around
  the HTTP client that share one `{loading, error}` pair;
- the **login/register modal**: its mode flag, its two forms with their
  declared rules, and its submit handlers;
- the **navigation bar**: the selected location, the drawer and popup
  flags, and the wiring of the popups' callbacks and of `logout`.

Each core file is one module (`Location`, `Auth`, `Api`, `Login`, `Nav`).
`Common` holds the shared values. A component whose fields the source updates
in place is a class with those fields: `Auth.Session`, `Api.ApiStore`,
`Location.LocationPicker`, `Login.LoginModal` and `Nav.Navbar`. The pure helpers
are functions, with lemmas about them. Nothing external runs in the model:

- every HTTP call, the Nominatim `fetch` and `navigator.geolocation` become
  an input value (`Api.HttpOutcome`, `Location.LookupResult`,
  `Location.PositionResult`, and a flag for "the browser has geolocation");
- an async operation is split at its `await`. `ApiStore.Begin` runs before
  the call and `ApiStore.Settle` runs after it (its `catch` and `finally`).
  `ApiStore.Run` and the four wrappers run both parts in sequence. The
  picker's `detectLocation` is split the same way (`StartDetect`, then
  `OnPosition` or `OnPositionError`);
- the callbacks a popup fires (`onSelectLocation`, `onClose`) and the toast it
  shows are returned as a `Common.Effects` value. `Nav.Navbar` applies them;
- a form field that is untouched or reset (`undefined` in the source) is `""`.
  A JSON field or server message that may be missing is an `Option<string>`.
  It is truthy when present and non-empty, as JavaScript's `||` treats it.

Two details of the source's behaviour:

- On failure the store keeps the server's message only when it is *truthy*, so
  an empty message falls back too. `getLocation` always stores its own message.
- A failed login leaves the session *as it was*; it does not force it to
  logged out.

## Model

| member | source | states |
|---|---|---|
| Auth.StepIdempotent | src/Context/AuthContext.tsx:17-23 | `login` and `logout` overwrite the flag: applying one twice equals applying it once, and the prior value does not matter |
| Auth.ReplayAppend | src/Context/AuthContext.tsx:17-23 | replaying calls `a + b` is replaying `b` from the flag `a` leaves |
| Auth.ReplayLastCallWins | src/Context/AuthContext.tsx:17-23 | after any non-empty sequence of `login`/`logout` calls the flag is true iff the last call was `login`; no calls leave it unchanged |
| Auth.ReplayRepeatLast | src/Context/AuthContext.tsx:17-23 | repeating the last call of any sequence changes nothing |
| Auth.Session.constructor | src/Context/AuthContext.tsx:15 | the session starts logged out |
| Auth.Session.Login | src/Context/AuthContext.tsx:17-19 | afterwards logged in, whatever the prior state |
| Auth.Session.Logout | src/Context/AuthContext.tsx:21-23 | afterwards logged out, whatever the prior state |
| Auth.UseAuth | src/Context/AuthContext.tsx:33-39 | fails with "useAuth must be used inside AuthProvider" exactly when there is no provider; otherwise returns the provider's session itself |
| Api.FailureMessage | src/Context/ApiContext.tsx:35-83 | the stored error is never empty; it is the server message when that is truthy and the operation is not the location lookup, otherwise that operation's fallback |
| Api.FallbackMessagesDistinct | src/Context/ApiContext.tsx:35-83 | the four fallback messages differ pairwise, so the fallback messages tell the operations apart (a truthy server message is stored as it is and may equal another operation's fallback) |
| Api.ApiStore.constructor | src/Context/ApiContext.tsx:23-24 | initially not loading and no error |
| Api.ApiStore.Begin | src/Context/ApiContext.tsx:29-30 | the start of every operation: loading, error cleared |
| Api.ApiStore.Settle | src/Context/ApiContext.tsx:32-39 | after the call: success returns `data` unchanged and leaves `error`; failure stores the message and passes on the same error; `loading` is false on both paths; the invariant "loading implies no error" holds afterwards |
| Api.ApiStore.Run | src/Context/ApiContext.tsx:27-40 | a whole operation: success iff the call resolved, then `error` is null (an earlier error is cleared); failure re-signals the call's error and stores its message; `loading` ends false |
| Api.ApiStore.Login | src/Context/ApiContext.tsx:27-40 | `login`: the payload on success; on failure, the error re-signalled with the server message or "Login failed" stored; `loading` ends false |
| Api.ApiStore.Register | src/Context/ApiContext.tsx:43-56 | `register`: as `login`, with "Register failed" |
| Api.ApiStore.ProviderRegister | src/Context/ApiContext.tsx:59-72 | `providerRegister`: as `login`, with "Provider register failed" |
| Api.ApiStore.GetLocation | src/Context/ApiContext.tsx:75-88 | `getLocation`: on failure always "Location fetch failed", whatever the server said |
| Location.LowerIdempotent | src/Components/LocationPopup.tsx:102 | lower-casing twice equals lower-casing once |
| Location.IncludesAt | src/Components/LocationPopup.tsx:102 | the recursive `includes` holds iff the query occurs at some position of the name |
| Location.MatchingCities | src/Components/LocationPopup.tsx:100-103 | the filter keeps at most as many cities as it is given, and each kept city is one of them and matches the query |
| Location.MatchingCitiesComplete | src/Components/LocationPopup.tsx:100-103 | every given city that matches is kept |
| Location.MatchingCitiesInOrder | src/Components/LocationPopup.tsx:100-103 | the kept cities are a subsequence of the list, in the list's order |
| Location.MatchingCitiesAppend | src/Components/LocationPopup.tsx:100-103 | filtering a concatenation is concatenating the filtered parts |
| Location.MatchingCitiesIgnoreCase | src/Components/LocationPopup.tsx:102 | two queries with the same lower-cased form select the same cities |
| Location.MatchingCitiesLowerQuery | src/Components/LocationPopup.tsx:102 | a query and its lower-cased form select the same cities |
| Location.MatchingCitiesEmptyQuery | src/Components/LocationPopup.tsx:99-108 | the filter alone keeps every city for an empty query, so the emptiness test is what makes an empty search offer nothing |
| Location.ToOptions | src/Components/LocationPopup.tsx:104 | one option per city, in order, with value and label both the city |
| Location.SuggestionsArePresets | src/Components/LocationPopup.tsx:15-105 | the suggestions are at most ten, each a preset city as value and label, each matching the query |
| Location.SuggestionsComplete | src/Components/LocationPopup.tsx:15-105 | every preset city that matches the query is suggested |
| Location.SuggestionExampleDelhi | src/Components/LocationPopup.tsx:99-104 | "DEL" suggests Delhi: case is ignored |
| Location.SuggestionExampleBad | src/Components/LocationPopup.tsx:99-104 | "bad" suggests Hyderabad: the query may sit inside the name |
| Location.FirstTruthy | src/Components/LocationPopup.tsx:61-66 | the result is the first truthy field when there is one (earlier fields all falsy), else the fallback |
| Location.PlaceName | src/Components/LocationPopup.tsx:61-66 | the resolved place name is never empty |
| Location.PlaceNameIsFirstTruthy | src/Components/LocationPopup.tsx:61-66 | the chain of JavaScript "or" over city, town, village and district is the first truthy of them, else "Your Location" |
| Location.PlaceNameExamples | src/Components/LocationPopup.tsx:61-66 | a town stands in for a missing or empty city; an empty address yields "Your Location" |
| Location.PositionErrorMessage | src/Components/LocationPopup.tsx:79-87 | code 1, 2 and 3 each give their own message, and exactly the other codes give the generic message |
| Location.PositionErrorMessagesDistinct | src/Components/LocationPopup.tsx:79-87 | two codes share a message iff they are equal or neither is 1, 2 or 3 |
| Location.LookupEffects | src/Components/LocationPopup.tsx:46-72 | a location is reported (and the picker closed) iff the lookup returned an address; it is that address's place name, with the "Location detected" toast; otherwise the "temporarily unavailable" toast and nothing reported |
| Location.LocationPicker.constructor | src/Components/LocationPopup.tsx:29-31 | empty search, no options, not loading |
| Location.LocationPicker.HandleSearch | src/Components/LocationPopup.tsx:97-109 | the search value is the query; the options are the matching preset cities for a non-empty query and none for an empty one; the options stay preset cities |
| Location.LocationPicker.HandleSelect | src/Components/LocationPopup.tsx:111-116 | reports exactly the chosen value and closes; search and options are cleared |
| Location.LocationPicker.HandleCityClick | src/Components/LocationPopup.tsx:118-121 | reports the city and closes, without a toast and without touching the picker's state |
| Location.LocationPicker.StartDetect | src/Components/LocationPopup.tsx:33-41 | without geolocation: the "unsupported" toast, no request, `loading` untouched; with it: a request and `loading` set |
| Location.LocationPicker.OnPosition | src/Components/LocationPopup.tsx:42-76 | the lookup's effects (as `LookupEffects`), then `loading` cleared |
| Location.LocationPicker.OnPositionError | src/Components/LocationPopup.tsx:77-88 | `loading` cleared, nothing reported, no close, the toast for the error code |
| Location.LocationPicker.DetectLocation | src/Components/LocationPopup.tsx:33-95 | `detectLocation` to completion: a request iff geolocation exists; the effects of the lookup or of the error code; `loading` ends false whenever a request was made |
| Login.LoginErrors | src/Components/LoginPopup.tsx:164-192 | the login form passes iff email and password are non-empty; each empty field gets its "required" message, and no other field is checked |
| Login.RegisterErrors | src/Components/LoginPopup.tsx:222-270 | the register form passes iff name and email are non-empty and the password has at least 6 characters; an empty password gets only "required", a short one only "at least 6 characters" |
| Login.SwitchedFlipsMode | src/Components/LoginPopup.tsx:59-66 | switching flips the mode, resets the form of the mode left (decided before the flip) and keeps the other |
| Login.SwitchTwice | src/Components/LoginPopup.tsx:59-66 | two switches restore the mode, with both forms reset |
| Login.LoginModal.constructor | src/Components/LoginPopup.tsx:20-22 | the modal starts in login mode with empty forms |
| Login.LoginModal.EditLogin | src/Components/LoginPopup.tsx:157-192 | typing into the login form changes only that form |
| Login.LoginModal.EditRegister | src/Components/LoginPopup.tsx:215-270 | typing into the register form changes only that form |
| Login.LoginModal.HandleLogin | src/Components/LoginPopup.tsx:29-40 | success: session logged in, login form reset, "Login successful!" and close; failure: session and forms unchanged, no close, the store's error set |
| Login.LoginModal.HandleRegister | src/Components/LoginPopup.tsx:43-57 | success: register form reset and login mode, no close, no login; failure: mode and forms unchanged, the store's error set |
| Login.LoginModal.SwitchMode | src/Components/LoginPopup.tsx:59-66 | the state after `switchMode` is `Switched` of the state before |
| Login.LoginModal.SubmitLogin | src/Components/LoginPopup.tsx:149-163 | submittable in login mode only; a form failing its rules reports the errors and changes nothing; a passing one ends with `loading` false and, on success, the session logged in, the form emptied, no error stored, the success toast and a close request; on failure the session and form as they were and the login failure message stored |
| Login.LoginModal.SubmitRegister | src/Components/LoginPopup.tsx:149-221 | submittable in register mode only; a form failing its rules reports the errors and changes nothing; a passing one ends with `loading` false and never closes: on success login mode, the form emptied, no error stored and the success toast; on failure the mode and form as they were and the register failure message stored |
| Nav.DesktopAccountControl | src/Layout/Navbar.tsx:97-113 | the Login button iff logged out, the avatar menu iff logged in |
| Nav.DrawerAccountControl | src/Layout/Navbar.tsx:174-199 | the drawer's Login button iff logged out, its Logout button iff logged in |
| Nav.AccountControlsAgree | src/Layout/Navbar.tsx:97-199 | the bar and the drawer offer a login in the same states |
| Nav.Navbar.constructor | src/Layout/Navbar.tsx:18-22 | "Select Location", every flag closed, empty search, fresh popups in their initial state sharing the bar's session |
| Nav.Navbar.OpenLocation | src/Layout/Navbar.tsx:73-77 | the picker opens; nothing else changes |
| Nav.Navbar.OpenLogin | src/Layout/Navbar.tsx:98-100 | the login modal opens; nothing else changes |
| Nav.Navbar.OpenMenu | src/Layout/Navbar.tsx:126-130 | the drawer opens; nothing else changes |
| Nav.Navbar.CloseMenu | src/Layout/Navbar.tsx:149 | the drawer closes; nothing else changes |
| Nav.Navbar.PathChanged | src/Layout/Navbar.tsx:31-33 | a route change closes the drawer; nothing else changes |
| Nav.Navbar.EditSearch | src/Layout/Navbar.tsx:88-89 | the service search box holds what was typed |
| Nav.Navbar.DrawerOpenLocation | src/Layout/Navbar.tsx:154-161 | the picker opens and the drawer closes |
| Nav.Navbar.DrawerOpenLogin | src/Layout/Navbar.tsx:175-181 | the login modal opens and the drawer closes |
| Nav.Navbar.DrawerBecomeProvider | src/Layout/Navbar.tsx:201-207 | the drawer closes |
| Nav.Navbar.DrawerLogout | src/Layout/Navbar.tsx:187-194 | logged out and drawer closed; both places now offer a login |
| Nav.Navbar.DropdownLogout | src/Layout/Navbar.tsx:40-47 | the avatar menu's item calls the same `logout`: logged out, the Login button shown |
| Nav.Navbar.SelectLocation | src/Layout/Navbar.tsx:138-141 | the reported city becomes the selected location and the picker closes |
| Nav.Navbar.ClosePicker | src/Layout/Navbar.tsx:137 | closing the picker without choosing keeps the selected location |
| Nav.Navbar.CloseLogin | src/Layout/Navbar.tsx:134 | the login modal closes |
| Nav.Navbar.DeliverPicker | src/Layout/Navbar.tsx:135-142 | a reported city becomes the selected location, no report keeps it; the picker stays open only if it was open and nothing asked to close it |
| Nav.Navbar.PickerSelect | src/Layout/Navbar.tsx:135-142 | choosing a suggestion selects it, closes the picker and clears its search, leaving its `loading` as it was |
| Nav.Navbar.PickerCityClick | src/Layout/Navbar.tsx:135-142 | clicking a preset city selects it and closes the picker |
| Nav.Navbar.PickerDetect | src/Layout/Navbar.tsx:135-142 | the detected place name becomes the location exactly when geolocation, the fix and the lookup all succeed; otherwise the location and the picker flag are unchanged and a toast explains why. The toast is exactly the picker's: the "unsupported" error without geolocation, the lookup's toast after a fix, and the code's message after a position error; the picker's search and options are kept, and its `loading` is cleared when a request was made and kept when geolocation is missing |
| Nav.Navbar.LoginSubmit | src/Layout/Navbar.tsx:134 | in login mode: a valid form with a successful login logs in, closes the modal, empties the form, clears the stored error and returns the success toast, and the avatar menu replaces the Login button; a failed login keeps the session, the modal flag and the form and stores the login failure message; a form failing its rules changes nothing; the mode and the register form are kept |

## Left out

- HTTP, `fetch` and `navigator.geolocation` are not modelled as I/O; their outcomes are parameters. This includes the request URLs and headers and the position options (no high accuracy, 10-second timeout, no cached fix).
- The request payloads (credentials, the new user, provider fields, latitude and longitude) only feed the external request, so they are not parameters of the store's operations.
- Two store operations in flight at once are not modelled; the model runs them one after another. The shared `{loading, error}` pair is last-write-wins in the source.
- The picker does not cancel a pending position request when it is closed. The model delivers the late result the same way the source does.
- Toasts are returned as `Notice` values and not displayed. `console.log` calls are dropped.
- `Location.Lower`: only ASCII letters are lower-cased, not full Unicode `toLowerCase`. This is exact for the preset city names, but the query is lower-cased as well. A query with a non-ASCII character that JavaScript lower-cases to an ASCII letter can therefore match in the source and not in the model. For example, the Kelvin sign U+212A becomes "k" and so matches Kolkata.
- The email-format rule of the forms comes from the form library and is not modelled; only the `required` and `min` rules are.
- A JSON address field or server message that is not a string (a number, an object) is not modelled.
- Rendering, animations, styling, the `open`/`show` props, navigation (`nav("/")`, `nav("/become-provider")`), the service search's `onSearch` (it only logs) and the Google button (it has no handler) are not modelled.
- src/Pages/Home.tsx, src/Pages/ServiceProviderForm.tsx, src/Pages/NotFound.tsx, src/App.tsx, src/main.tsx and src/Context/useApi.ts are not part of this model. `useApi` repeats the guard of `useAuth`.
- React's batching of state updates and StrictMode double rendering are not modelled; each setter takes effect at once, in program order.
