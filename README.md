# Profile page core of the LinkedIn-style client, modelled in Dafny

This project models the logic of the profile page of a browser-based social-networking
client (a React application):

- the `Profile` controller (`src/pages/Profile.jsx`), with its parts:
  - a loading flag and four collections (posts, educations, experiences, skills);
  - an effect, keyed on the session user, that dispatches four fetches;
  - four result handlers that overwrite their own collection on success;
  - a route table that picks the summary, all-posts, all-skills or not-found view;
  - the overlay flags of the summary page (edit intro) and the skills page (add skill);
- the profile header (`src/components/Profile/ProfileHeader.jsx`), with its parts:
  - the two `reduce` folds that pick the most recent school and employer;
  - the edit flag taken from the query string with `search.split('=')[1]`;
  - the effect that opens the edit-intro overlay when that flag is set;
  - the connection count.

Files:

- `wrappers.dfy` — `Option`.
- `entities.dfy` — the records, and JSON field values (`Raw`).
  - JavaScript truthiness, `Number(v)` / `new Date(v).getTime()` (`ToNumber`), `x || 0` and `>` with NaN.
- `recency.dfy` — the two folds, and lemmas that characterise their results.
- `header.dfy` — the query-string split and the edit flag, the connection count, and the header's state as a class.
- `pages.dfy` — the fetch-result algebra, the requests, the route table and the three page classes.

Text parsing is a parameter. `ToNumber` gives undefined → NaN (`None`), null → 0 and a number → itself. A string goes to a
caller-supplied parser of type `string -> Option<int>`: one stands for `Number`, the other for `Date`.
Every property below holds for every such parser.

The folds are modelled as the source writes them: one step per entry, the source's own comparison, and the
source's initial value (`{}` for educations, `null` for experiences). Each fold is then tied to a declarative
definition, "the earliest entry with the largest positive score", by an all-inputs lemma.

React state is modelled with classes. `useState` variables are fields, and handlers are methods with
`modifies` clauses. An effect remembers the dependency value it last ran with, so it runs only when that value changes.

## Model

| member | source | states |
|---|---|---|
| `Recency.LastEducation` | src/components/Profile/ProfileHeader.jsx:19-21 | the education fold returns either the initial `{}` or an entry of `user.educations` |
| `Recency.LastEducationIsLatest` | src/components/Profile/ProfileHeader.jsx:19-21 | the fold stays `{}` exactly when no entry has a positive numeric `endYear`; otherwise it is the entry with the largest year, and on ties the earliest one (the comparison is strict) |
| `Recency.NonPositiveEducationNeverPicked` | src/components/Profile/ProfileHeader.jsx:20 | an entry whose `endYear` is missing, not a number or not positive is never the result |
| `Recency.EducationExample` | src/components/Profile/ProfileHeader.jsx:19-21 | schools ending "2018" and "2022" give the 2022 school |
| `Recency.EducationWithoutYearIsEmpty` | src/components/Profile/ProfileHeader.jsx:19-21 | a non-empty list with no year still gives `{}`; the fold does not fall back to the last entry |
| `Recency.LastExperience` | src/components/Profile/ProfileHeader.jsx:23-30 | the experience fold returns `null` or an entry of `user.experiences` whose `endYear` is truthy |
| `Recency.LastExperienceIsLatest` | src/components/Profile/ProfileHeader.jsx:23-30 | the fold is `null` exactly when no entry has a truthy `endYear` with a positive date; otherwise it is the entry with the latest such date, and on ties the earliest one; entries with a falsy `endYear` never compete |
| `Recency.ExperienceExample` | src/components/Profile/ProfileHeader.jsx:23-30 | an ongoing position (null end) beside one ending 2021-05-01 gives the latter |
| `Header.Split` | src/components/Profile/ProfileHeader.jsx:11 | `split('=')` gives at least one piece, no piece holds `=`, and joining the pieces with `=` gives the string back |
| `Header.SplitOfJoin` | src/components/Profile/ProfileHeader.jsx:11 | the converse round trip: pieces free of `=` are recovered by splitting their join, so the split is the only such decomposition |
| `Header.EditFlag` | src/components/Profile/ProfileHeader.jsx:11 | `isEdit` is undefined exactly when the query string has no `=`; otherwise the string reads `key=isEdit` followed by nothing or by another `=`, with no `=` in the key or in `isEdit` |
| `Header.OpensEditModal` | src/components/Profile/ProfileHeader.jsx:38 | `isEdit` is truthy exactly when the query string's first `=` is followed by a character other than `=` |
| `Header.FlagAfterKey` | src/components/Profile/ProfileHeader.jsx:11 | in `key=isEdit…` with a `=`-free key, the first `=` is the one right after the key, and `isEdit` is non-empty exactly when a character other than `=` follows it |
| `Header.EditFlagOfQuery` | src/components/Profile/ProfileHeader.jsx:11 | for `key=value` followed by nothing or by another `=`, `isEdit` is `value`, whatever the key |
| `Header.EditQueryExamples` | src/components/Profile/ProfileHeader.jsx:37-41 | `?edit=true` and `?mode=1` open the overlay; `?edit=`, `?edit` and an empty query do not |
| `Header.ConnectionCount` | src/components/Profile/ProfileHeader.jsx:112 | the displayed count is followers plus following; the fallback to 0 never changes it |
| `Header.ProfileHeader.constructor` | src/components/Profile/ProfileHeader.jsx:14-15 | `lastSchool` and `lastCompany` start as the empty string |
| `Header.ProfileHeader.RecencyEffect` | src/components/Profile/ProfileHeader.jsx:17-35 | the names are recomputed only when the user changed and is present: then they are the latest school and company from the folds, undefined when nothing was picked; otherwise they are kept |
| `Header.ProfileHeader.EditEffect` | src/components/Profile/ProfileHeader.jsx:37-41 | the overlay is asked to open exactly when `isEdit` changed and is a non-empty string |
| `ProfilePages.Apply` | src/pages/Profile.jsx:41-83 | a successful result replaces exactly its own collection with `data`; a failed one changes nothing; the other three collections are never touched |
| `ProfilePages.LastSuccess` | src/pages/Profile.jsx:41-83 | the last successful result for a collection is one of the results and targets that collection |
| `ProfilePages.ApplyAllLastSuccess` | src/pages/Profile.jsx:41-83 | after any sequence of results, each collection holds the data of the last successful result for it, or what it held before; no identifier is checked |
| `ProfilePages.AnyOrderSameCollections` | src/pages/Profile.jsx:41-83 | with one result per collection, every completion order leaves the same four collections |
| `ProfilePages.Dispatch` | src/pages/Profile.jsx:33-36 | one effect run issues four GET requests, one to each collection's endpoint for the route id |
| `ProfilePages.Preview` | src/pages/Profile.jsx:92 | the summary gets a prefix of length min(n, 3), which is the whole collection when n ≤ 3 |
| `ProfilePages.SelectPage` | src/pages/Profile.jsx:91-96 | route selection is total and exclusive: "/" gives the summary, "/all-posts" all posts, "/all-skills" all skills, and every other path not-found |
| `ProfilePages.RouteView` | src/pages/Profile.jsx:92-95 | "/" gives the summary, with exactly the preview (first min(n, 3)) of the posts and of the skills, and every education and experience; the list pages get their whole collection; every other path gives not-found |
| `ProfilePages.Profile.constructor` | src/pages/Profile.jsx:23-27 | the controller starts loading, with all four collections empty |
| `ProfilePages.Profile.Render` | src/pages/Profile.jsx:85-96 | while loading, only the loader is returned and no route is selected; otherwise the route table's view |
| `ProfilePages.Profile.UserEffect` | src/pages/Profile.jsx:30-39 | runs only when `user` changed, not when `id` changed; with no user it dispatches nothing and leaves loading on; with a user it dispatches the four fetches and clears loading before any has settled |
| `ProfilePages.Profile.PostsSettled` | src/pages/Profile.jsx:41-50 | posts become `data` on success and stay as they were on failure |
| `ProfilePages.Profile.EducationsSettled` | src/pages/Profile.jsx:52-61 | educations become `data` on success and stay as they were on failure |
| `ProfilePages.Profile.ExperiencesSettled` | src/pages/Profile.jsx:63-72 | experiences become `data` on success and stay as they were on failure |
| `ProfilePages.Profile.SkillsSettled` | src/pages/Profile.jsx:74-83 | skills become `data` on success and stay as they were on failure |
| `ProfilePages.ProfilePage.constructor` | src/pages/Profile.jsx:102-103 | the summary page holds its props, and the edit-intro overlay starts closed |
| `ProfilePages.ProfilePage.Edit` | src/components/Profile/ProfileHeader.jsx:78 | the pen button opens the overlay |
| `ProfilePages.ProfilePage.Save` | src/pages/Profile.jsx:105-107 | saving closes the overlay and changes neither the user nor any collection |
| `ProfilePages.ProfilePage.Cancel` | src/pages/Profile.jsx:125 | cancelling closes the overlay |
| `ProfilePages.ProfilePage.Close` | src/pages/Profile.jsx:120 | the overlay's close handler closes it |
| `ProfilePages.ProfilePage.HeaderEditEffect` | src/components/Profile/ProfileHeader.jsx:37-41 | the header's effect opens the overlay when the edit flag changed to a non-empty value, and never closes it |
| `ProfilePages.ProfilePage.HeaderRecencyEffect` | src/pages/Profile.jsx:111 | the header is handed the session `user`, so the school and company it shows are the latest of that user's own educations and experiences, recomputed only when the user changed |
| `ProfilePages.SkillPage.constructor` | src/pages/Profile.jsx:148-149 | the add-skill overlay starts closed |
| `ProfilePages.SkillPage.TogglePlus` | src/pages/Profile.jsx:159 | the plus button flips the overlay, so two presses restore it |
| `ProfilePages.SkillPage.Close` | src/pages/Profile.jsx:192 | the overlay's close handler closes it |

## Behaviour worth noting

- The education fold starts from `{}` (src/components/Profile/ProfileHeader.jsx:21). A non-empty list in which no
  year is positive therefore yields `{}`, not an entry (`Recency.EducationWithoutYearIsEmpty`).
- The loading flag is cleared right after the four fetches are dispatched (src/pages/Profile.jsx:33-37), before any of
  them has settled (`ProfilePages.Profile.UserEffect`).
- The fetch effect depends on `user` alone (src/pages/Profile.jsx:39). A change of the route's `id` alone does not
  re-fetch, and every settled result is applied, whichever id it was fetched for (`ProfilePages.ApplyAllLastSuccess`).
- A failed fetch leaves its collection as it was (src/pages/Profile.jsx:41-83), so a failure never empties a collection.
  A collection is empty only until a successful result fills it, or after a successful result whose `data` is empty
  (src/pages/Profile.jsx:47-48, 58-59, 69-70, 80-81).
- The header's two folds rank the session user's `educations` and `experiences` (src/components/Profile/ProfileHeader.jsx:19
  and 23), because the page hands the header `user` (src/pages/Profile.jsx:111). The four collections fetched for
  the route's `id` are never consulted (`ProfilePages.ProfilePage.HeaderRecencyEffect`).
- The skill trash button has no handler (src/pages/Profile.jsx:186), and `handleSave` only closes the overlay
  (src/pages/Profile.jsx:105-107): nothing deletes a skill or merges the edited intro fields.
- The header reads `user.firstName` and `user.following.length` without a null check
  (src/components/Profile/ProfileHeader.jsx:85 and 112). So rendering the summary page with a null session user
  throws before any effect runs. When the user becomes null while "/" is shown, the next render still has
  `isLoading` false (src/pages/Profile.jsx:85-92), because `setIsLoading(true)` (src/pages/Profile.jsx:31) runs only
  in the effect afterwards. That render throws, so the logout path does not reach the loader from "/".

## Left out

- Login (OAuth redirects, the login request, session dispatch) and the chat panel are not part of this model.
- The `apiAction` transport is not part of this model. Its outcomes are inputs: the `*Settled` methods and `FetchResult` values.
- The asynchrony of the four fetches is not modelled. Any interleaving is a sequence of handler calls.
- JavaScript string-to-number and string-to-date parsing are parameters.
  - Fractional numbers and times are not represented, because values are integers.
  - A `new Date(n)` outside the valid time range (NaN) is not represented.
- `Raw` has no booleans, objects or NaN literals, because JSON `endYear` fields are strings, numbers, null or absent.
- An experience entry that is itself `null` (which `experience?.endYear` tolerates) is not modelled. Entries are always records.
- A successful response whose `data` is not an array is not modelled. `data` is always a sequence.
- React compares effect dependencies by reference, but the model compares `user` by value. A new user object with equal
  contents re-runs the effect in React but not in the model.
- `ProfilePages.SelectPage`: react-router's case-insensitive and trailing-slash matching is not modelled; paths match exactly.
- `window.history.back`, the image file input, the chat-context toggle, all layout and per-skill rendering strings
  are not modelled, because they are browser and presentation plumbing.
- `ProfilePages.ProfilePage.HeaderEditEffect` models the header calling the page's `setIsModalOpen(true)` as a
  method of the page that consults the header's effect.
- `Header.ConnectionCount`, `Header.ProfileHeader.RecencyEffect`, `ProfilePages.Profile.Render`: the TypeError that the
  header's render throws on a null `user` (src/components/Profile/ProfileHeader.jsx:85 and 112) is not modelled.
  `ConnectionCount` takes a `User`, so it has no null case. `Render("/", None)` with loading off returns the summary
  view instead of failing. `RecencyEffect` with no user keeps both names, as its `if (user)` guard would, although in
  the source the render before it has already thrown.
