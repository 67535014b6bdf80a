# Cultural-regions pages, course form and credential list — a Dafny model

This project models the small deterministic pieces of logic in a collection of
front-end demo applications and one Express backend:

- the backend's in-memory credential list (`register` appends a record with a
  hashed password; `login` finds the first record with the name, compares the
  password and signs a token);
- the cultural-exploration site: the Regions page's search and compass filter,
  the home-page map's name lookup and click guard, the featured-regions section
  (first three cards, description preview, "+N more" badge, "Explore All"
  button) and the Discover page's random pick and random fact;
- the practical exam's employee prefix filter;
- the course-registration form, a three-part state machine with a validation guard.

Modules: `Wrappers` (Option), `Seqs` (the array operations `filter`, `find`,
`findIndex`, `slice`, `join` with their lemmas), `Strings` (ASCII
`toLowerCase`, `includes`, `startsWith`, `trim`, `substring`, decimal
formatting), `RegionEntity` (the region record the pages read), then one module
per source file: `AuthController`, `RegionsPage`, `InteractiveMap`,
`EmployeeList`, `CourseRegistration`, `FeaturedRegions`, `Discover`.

State that the source updates in place is a class: `AuthController.Controller`
(the `users` array), `CourseRegistration.App` (`formData`, `entries`, `error`,
with the invariant `Valid()`) and `Discover.DiscoverPage` (the page's React
state). The rest is functions and lemmas.

Foreign calls are parameters. bcrypt's `hash` and `compare` and jsonwebtoken's
`sign` are the three function fields of a `Crypto` value. The one thing assumed
of them is `Sound`: `compare` accepts a password against any hash made from it.
bcrypt's random salt is an argument of `Register`. The current time that
`jwt.sign` stamps into the token as `iat` (with `exp` one hour later) is an
argument of `Login`, so two logins at different times can get different tokens. The value of `process.env.JWT_SECRET`, which `login` reads on each call and which is assumed fixed while the process runs, is
a constructor argument. Each `Math.random()` draw is a real argument in [0, 1).
The result of `Region.list()` is an argument of `LoadRegions`.

`register` has no uniqueness check and no field validation: every call with
string fields appends a record and answers 201 (other request bodies are
listed under "Left out"). `login` consults only the first record with the
name, so a later registration of the same name never changes which passwords
log in for it: the later record is never read, and a password logs in exactly
when `compare` accepts it against the first record's hash.

## Model

| member | source | states |
|---|---|---|
| `AuthController.Controller.constructor` | exp6/server/controllers/authController.js:4 | the user list starts empty |
| `AuthController.Controller.Register` | exp6/server/controllers/authController.js:6-15 | appends exactly `{username, hash(password, 10, salt)}` at the end, earlier records unchanged; always answers 201 "User registered successfully", also for a name already present |
| `AuthController.Controller.Login` | exp6/server/controllers/authController.js:17-31 | answers 200 with a token signed over `{username}` with the secret, "1h" and the issue time exactly when the first record with the name holds a hash `compare` accepts; otherwise, for an unknown name and a wrong password alike, the identical 400 "Invalid credentials"; has no `modifies` clause, so `users` is never changed |
| `AuthController.FirstUser` | exp6/server/controllers/authController.js:20 | the index found is the first record with that name; none is found exactly when no record has it |
| `AuthController.Accepts` | exp6/server/controllers/authController.js:20-24 | credentials are accepted only when some stored record has the name and a hash `compare` accepts for the password |
| `AuthController.AcceptsIffFirstRecordMatches` | exp6/server/controllers/authController.js:20-24 | credentials are accepted iff the first record with the name matches the password, whatever later records hold |
| `AuthController.ReRegisterKeepsLogin` | exp6/server/controllers/authController.js:8-24 | appending any record for a name already present changes neither which record is found nor whether a password is accepted |
| `AuthController.RegisterKeepsOtherLogins` | exp6/server/controllers/authController.js:8-24 | registering one name never changes the outcome of a login for another name |
| `AuthController.RegisterThenAccepts` | exp6/server/controllers/authController.js:9-26 | round trip: after registering a fresh name with a password, that password is accepted |
| `AuthController.RegisterThenLogin` | exp6/server/controllers/authController.js:6-31 | `Register` then `Login` of a fresh name answers 200 with the token signed over the name at the given issue time |
| `RegionsPage.MatchesSearch` | exp5/src/pages/Regions.jsx:25-29 | the search test; an empty term matches every region |
| `RegionsPage.InCompass` | exp5/src/pages/Regions.jsx:34-53 | the compass test over the four state lists; a filter value other than north, south, east and west keeps every region |
| `RegionsPage.FilterRegions` | exp5/src/pages/Regions.jsx:21-58 | the result is never longer than `regions`; an empty term with filter "all" returns `regions` unchanged |
| `RegionsPage.FilterRegionsIsOneFilter` | exp5/src/pages/Regions.jsx:21-58 | the two guarded passes equal one `filter` by "matches the search and the compass filter" |
| `RegionsPage.FilterRegionsMembership` | exp5/src/pages/Regions.jsx:24-55 | a region is in the result iff it is in the input, its name, description or primary language contains the term ignoring case, and it passes the compass filter (sound and complete) |
| `RegionsPage.FilterRegionsSubsequence` | exp5/src/pages/Regions.jsx:22-57 | the result is an order-preserving subsequence of `regions` |
| `RegionsPage.UnknownFilterKeepsAll` | exp5/src/pages/Regions.jsx:33-53 | a filter value other than north, south, east and west filters nothing |
| `RegionsPage.FilterRegionsIdempotent` | exp5/src/pages/Regions.jsx:21-58 | filtering the result again with the same term and filter returns it unchanged |
| `RegionsPage.RajasthanIsNorthAndWest` | exp5/src/pages/Regions.jsx:35-50 | a region whose lowercased name contains "rajasthan" passes both "north" and "west" |
| `InteractiveMap.MapRegionNamesDistinct` | exp5/src/components/home/InteractiveMap.jsx:20-37 | the map table has 16 points with pairwise-distinct names (they are the render keys) |
| `InteractiveMap.GetRegionData` | exp5/src/components/home/InteractiveMap.jsx:39-42 | a result is a region of the list whose name contains the map name or is contained in it, ignoring case; it is the first containing one when any exists, else the first contained one; there is none exactly when no region matches either way |
| `InteractiveMap.NoRegionsNoData` | exp5/src/components/home/InteractiveMap.jsx:39-42 | with no regions loaded no map point has data |
| `InteractiveMap.OnClick` | exp5/src/components/home/InteractiveMap.jsx:72 | a click selects a region exactly when the point has data, and passes exactly that region |
| `EmployeeList.Query` | practical-EST/ques1/app.jsx:13 | the normalised query is no longer than the filter, has no upper-case letter, and is empty exactly when the filter is all white space |
| `EmployeeList.Filtered` | practical-EST/ques1/app.jsx:12-16 | never more employees than listed; an empty or white-space-only filter returns `employees` unchanged |
| `EmployeeList.FilteredMembership` | practical-EST/ques1/app.jsx:13-15 | otherwise an employee is shown iff it is listed and its lowercased name starts with the trimmed, lowercased filter (sound and complete) |
| `EmployeeList.FilteredSubsequence` | practical-EST/ques1/app.jsx:12-16 | the result is an order-preserving subsequence of `employees` |
| `Strings.TrimIsPiece` | practical-EST/ques1/app.jsx:13 | `trim` leaves the contiguous piece of the filter between its leading and trailing white space |
| `EmployeeList.FilteredIgnoresPadding` | practical-EST/ques1/app.jsx:13 | white space before and after the filter does not change the result |
| `EmployeeList.FilteredIgnoresCase` | practical-EST/ques1/app.jsx:13 | filters that agree once lowercased give the same result |
| `EmployeeList.DefaultFilterA` | practical-EST/ques1/app.jsx:3-16 | on the default list the filter "a" shows only employee 1 |
| `CourseRegistration.Complete` | labmst/FS_23BCS10994_CSE-KRG2B/src/App.js:18 | the guard passes iff every field is non-empty |
| `CourseRegistration.Set` | labmst/FS_23BCS10994_CSE-KRG2B/src/App.js:10 | writing a field gives it the new value and leaves the other two as they were |
| `CourseRegistration.App.constructor` | labmst/FS_23BCS10994_CSE-KRG2B/src/App.js:4-6 | starts with an empty form, no entries and no error, satisfying the invariant |
| `CourseRegistration.App.HandleChange` | labmst/FS_23BCS10994_CSE-KRG2B/src/App.js:8-12 | updates only the named field, clears `error`, leaves `entries`, and keeps the invariant |
| `CourseRegistration.App.HandleSubmit` | labmst/FS_23BCS10994_CSE-KRG2B/src/App.js:14-25 | with a field empty: sets the error message, `entries` and `formData` unchanged; otherwise appends exactly `formData` to `entries` and resets the form (the error is then already empty); `entries` never shrinks and grows by at most one; keeps the invariant that every entry is complete |
| `CourseRegistration.FillAndSubmit` | labmst/FS_23BCS10994_CSE-KRG2B/src/App.js:8-25 | typing three non-empty fields and submitting with `handleSubmit` stores exactly that form and empties the form |
| `FeaturedRegions.Featured` | exp5/src/components/home/FeaturedRegions.jsx:34 | the featured list is the prefix of `regions` of length min(3, number of regions) |
| `FeaturedRegions.PreviewText` | exp5/src/components/home/FeaturedRegions.jsx:89 | the preview is the first at most 120 characters of the description followed by "..." |
| `FeaturedRegions.FestivalBadges` | exp5/src/components/home/FeaturedRegions.jsx:99-116 | the first-festival badge appears iff there is a festival; "+N more" appears iff there are more than one, with N = count − 1 |
| `FeaturedRegions.ShowExploreAll` | exp5/src/components/home/FeaturedRegions.jsx:125 | the "Explore All Regions" button appears iff some region is not featured |
| `FeaturedRegions.Render` | exp5/src/components/home/FeaturedRegions.jsx:10-140 | while loading, exactly 3 placeholders and no regions; otherwise one card per featured region, in order, and the button flag |
| `Discover.RandomIndex` | exp5/src/pages/Discover.jsx:26 | `floor(r * n)` for a draw r in [0, 1) is a valid index of a non-empty list |
| `Discover.AdditionalLangs` | exp5/src/pages/Discover.jsx:99 | no more languages than the region has, and none of them the primary language |
| `Discover.AdditionalLangsSpec` | exp5/src/pages/Discover.jsx:99 | `additionalLangs` is the order-preserving subsequence of the languages that differ from the primary one |
| `Discover.Candidates` | exp5/src/pages/Discover.jsx:63-109 | at most 4 facts; none exactly when the region has no festival, no dish, no art form and no additional language |
| `Discover.CandidatesOrdered` | exp5/src/pages/Discover.jsx:63-109 | the candidate facts come in the order festival, cuisine, art, language, each kind at most once |
| `Discover.CandidatesKinds` | exp5/src/pages/Discover.jsx:65-109 | each kind of fact is offered iff the region has its data; the language fact iff `additionalLangs` is non-empty |
| `Discover.LanguageFactCountsAll` | exp5/src/pages/Discover.jsx:105 | the language fact's detail gives the number of all languages, the primary one included |
| `Seqs.Filter` | practical-EST/ques1/app.jsx:15 | `filter` never returns more elements than it was given |
| `Seqs.FilterMembership` | practical-EST/ques1/app.jsx:15 | an element is in the filtered array iff it is in the array and passes the test |
| `Seqs.FilterIsSubsequence` | practical-EST/ques1/app.jsx:15 | `filter` keeps the order of what it keeps |
| `Seqs.SubsequenceRefl` | practical-EST/ques1/app.jsx:14 | returning the array itself keeps it in order |
| `Seqs.FilterKeepsAll` | exp5/src/pages/Regions.jsx:25-50 | a test every element passes filters nothing |
| `Seqs.FilterCompose` | exp5/src/pages/Regions.jsx:25-50 | two successive filters equal one filter by both tests |
| `Seqs.FilterIdempotent` | exp5/src/pages/Regions.jsx:25-50 | filtering again by the same test changes nothing |
| `Seqs.FindIndex` | exp6/server/controllers/authController.js:20 | the position `find` stops at: the first element passing the test, none exactly when no element passes |
| `Seqs.Find` | exp5/src/components/home/InteractiveMap.jsx:40-41 | `find` returns an element passing the test, with none before it passing, and `undefined` exactly when none passes |
| `Seqs.FindIndexAppend` | exp6/server/controllers/authController.js:8-20 | appending elements does not change what `find` finds when it found something before |
| `Seqs.FindIndexAppendMiss` | exp6/server/controllers/authController.js:8-20 | appending a passing element to an array where nothing passes makes `find` stop at it |
| `Seqs.RelativeIndex` | exp5/src/components/home/FeaturedRegions.jsx:34 | a `slice` bound is clamped into [0, length], a negative one counted from the end |
| `Seqs.Slice` | exp5/src/components/home/FeaturedRegions.jsx:34 | `slice` returns the elements from the clamped start up to the clamped end, in order |
| `Seqs.SlicePrefix` | exp5/src/components/home/FeaturedRegions.jsx:34 | `slice(0, n)` is the prefix of length min(n, length) |
| `Seqs.Join` | exp5/src/pages/Discover.jsx:104 | `join` of no parts is empty and of one part is that part |
| `Strings.LowerChar` | exp5/src/pages/Regions.jsx:26-28 | an upper-case ASCII letter maps to its lower-case letter, every other character to itself |
| `Strings.ToLower` | exp5/src/pages/Regions.jsx:26-28 | `toLowerCase` keeps the length and lowercases every character, leaving no upper-case letter |
| `Strings.StartsWith` | practical-EST/ques1/app.jsx:15 | `startsWith(p)` holds iff `p` is the string's prefix of its own length |
| `Strings.Includes` | exp5/src/pages/Regions.jsx:26-28 | `includes(n)` holds for every prefix `n`, and only when `n` is no longer than the string |
| `Strings.IncludesEmpty` | exp5/src/pages/Regions.jsx:26-28 | every string includes the empty search term |
| `Strings.TrimStart` | practical-EST/ques1/app.jsx:13 | strips exactly the leading white space, leaving a suffix that does not start with white space |
| `Strings.TrimEnd` | practical-EST/ques1/app.jsx:13 | strips exactly the trailing white space, leaving a prefix that does not end with white space |
| `Strings.Trim` | practical-EST/ques1/app.jsx:13 | `trim` leaves no white space at either end and never lengthens the string |
| `Strings.TrimEmptyIff` | practical-EST/ques1/app.jsx:13-14 | a filter trims to the empty string iff it is all white space |
| `Strings.TrimIgnoresPadding` | practical-EST/ques1/app.jsx:13 | white space added on either side does not change what a string trims to |
| `Strings.TrimLowerCommute` | practical-EST/ques1/app.jsx:13 | trimming then lowercasing equals lowercasing then trimming |
| `Strings.Clamp` | exp5/src/components/home/FeaturedRegions.jsx:89 | a `substring` bound is clamped into [0, length] |
| `Strings.Substring` | exp5/src/components/home/FeaturedRegions.jsx:89 | `substring` returns the characters between the two clamped bounds, whichever is the smaller |
| `Strings.SubstringSwap` | exp5/src/components/home/FeaturedRegions.jsx:89 | swapping the bounds of `substring` changes nothing |
| `Strings.SubstringPrefix` | exp5/src/components/home/FeaturedRegions.jsx:89 | `substring(0, n)` is the prefix of length min(n, length) |
| `Strings.NatToString` | exp5/src/pages/Discover.jsx:105 | the decimal text of a number is non-empty, all digits, and has no leading zero |
| `Strings.NatToStringRoundTrip` | exp5/src/pages/Discover.jsx:105 | the decimal text written into that detail denotes the count |
| `Discover.CollectFacts` | exp5/src/pages/Discover.jsx:63-109 | the successive pushes build exactly the candidate list |
| `Discover.DiscoverPage.constructor` | exp5/src/pages/Discover.jsx:11-14 | initial state: no regions, no discovery, loading, not shuffling |
| `Discover.DiscoverPage.PickRandomRegion` | exp5/src/pages/Discover.jsx:21-30 | an empty list changes no state and schedules nothing; otherwise shuffling starts and a timer carrying the list is scheduled |
| `Discover.DiscoverPage.ClickDiscover` | exp5/src/pages/Discover.jsx:147-148 | a click, possible only once loading has ended (the button is not rendered before) and while no shuffle is pending (the button is disabled during one), calls `pickRandomRegion()` with its default argument, the loaded `regions`: nothing happens when none are loaded, otherwise a shuffle over them starts |
| `Discover.DiscoverPage.FireShuffleTimer` | exp5/src/pages/Discover.jsx:25-29 | the discovery becomes the element of the captured list at the drawn index, so it is a member of that list; shuffling ends |
| `Discover.DiscoverPage.LoadRegions` | exp5/src/pages/Discover.jsx:32-46 | a successful fetch replaces `regions` and, when non-empty, starts a pick over it; a failed fetch changes nothing but `isLoading`, which ends false |
| `Discover.DiscoverPage.GetRandomFact` | exp5/src/pages/Discover.jsx:60-112 | null without a discovery; otherwise null iff there are no candidates, else one of the candidates |

## Left out

- Rendering, animation and styling: JSX markup, framer-motion, Tailwind classes, icons, the loading spinners' markup, the static tables of the other pages and components.
- Asynchrony: `async`/`await`, React effect and memo scheduling and state batching. Each handler runs as one atomic step, and the `setTimeout` of `pickRandomRegion` is split into scheduling and firing.
- Randomness: each `Math.random()` draw is an exact real in [0, 1). Floating-point rounding of `Math.random() * n` is not modelled.
- Cryptography: bcrypt and JWT are uninterpreted; the `Sound` assumption is the only property used. Token expiry ("1h") and the issue time are passed to `sign` but not interpreted. Token verification, the `protect` middleware and the error responder are not part of this model.
- AuthController.Controller.Register: request bodies with a missing or non-string field are not modelled. In the code, a missing password makes bcrypt throw and the error goes to `next(error)`; fields are strings here.
- CourseRegistration: the model covers the two handlers, not the browser's constraint validation. The email input has `type="email"` and the form has no `noValidate`, so a malformed non-empty email is blocked by the browser before `handleSubmit` runs.
- AuthController.Controller.Login: the `next(error)` path for exceptions thrown by the libraries is not modelled.
- The database, the Express wiring, CORS and environment reading (`stateController.js`, `state.js`, `server.js`, `stateRoutes.js`): not part of this model.
- Case mapping: `toLowerCase` maps only the ASCII letters A–Z. JavaScript strings are UTF-16 code units while Dafny characters are Unicode scalar values, so `substring(0, 120)` counts characters here.
- RegionsPage.FilterRegions: fields are strings here. In the code a region missing a field makes the filter throw only when the search reaches that field: a non-empty term that no earlier field matched, or a missing `name` under a named compass filter.
- FeaturedRegions.PreviewText: an absent description, which renders as "..." alone, is not modelled; descriptions are strings.
- Discover: `loadRegions` lists the unmemoised `pickRandomRegion` as a dependency, so its identity changes on every render and the effect that calls it runs again after each render, re-fetching and re-shuffling. The model treats `LoadRegions` as one event and does not capture that repetition.
- Discover: the page's other sections are rendering only; the button's `disabled` state while shuffling and its absence while loading are the precondition `!isLoading && !isShuffling` of `ClickDiscover`. `color_theme`, `image_url` and the landmarks list are only displayed and are not fields of the model.
