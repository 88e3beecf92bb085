# User directory: a Dafny model of its client-side logic

This project models the logic of a small React single-page application that lists
users from a public directory API, shows one user's profile, and lets the operator add
users through a validated form; added users live in one browser storage slot under the
key `"addedUsers"`. The model covers four source files:

- `src/types/index.ts` (module `Types`): the closed `Role` enumeration, the `User` and
  `UserFormData` records, and the field rules of `userFormSchema` as a pure function
  `Validate` from the raw form input to either the validated record or a map from each
  failing field to its message. The email pattern is a parameter `isEmail`.
- `src/pages/Home.tsx` (module `Home`): the case-insensitive, order-preserving name
  filter as a function, and the page state (`users`, `loading`, `error`, `searchTerm`)
  as a class whose methods are the fetch completion, typing and clearing the search.
- `src/pages/AddUser.tsx` (module `AddUser`, with the slot abstraction in `Storage`):
  a class with the `users` list and the storage `slot`, and methods for the mount
  effects, the save effect and form submission.
- `src/pages/UserProfile.tsx` (module `UserProfile`): the local-first lookup as a
  function, the `fetchUser` state transitions as a method, the render precedence and
  the six profile rows with their "N/A" formatting.

The HTTP request outcome is an input `Response<T> = Ok(data) | Failed`. The storage
slot, as read through `JSON.parse`, is `Slot<T> = Absent | Empty | Unparseable |
NonArray | Array(items)`; writing a list gives `Array(list)`.

One consequence proved here (`UserProfile.AddedUsersNeverFoundLocally`): the add-user
page stores form records, which have no `id`, while the profile page's local lookup
compares `id` with `===` against the route string, so a record added through the form
is never found locally and the profile always falls back to the API.

The code does not trim names; `age` need not be a whole number; no identifier is
generated on submit; there is no remove operation; locally added users are not merged
into the directory list; stored elements are not checked one by one, and no "data
corrupted" notice is produced; storage write failures are not reported.

## Model

| member | source | states |
|---|---|---|
| `Types.ParseRole` | src/types/index.ts:46-48 | a string parsed as a role is the run-time value of that role |
| `Types.RoleHasExactlyThreeValues` | src/types/index.ts:5-9 | the enum values are "Admin", "Editor", "Viewer", three distinct strings |
| `Types.ParseRoleExact` | src/types/index.ts:5-9 | a string is a role iff it is one of the three values, and parsing inverts the value mapping |
| `Types.FieldErrors` | src/types/index.ts:42-49 | a field has an entry iff its own rule fails, and the entry is that rule's message |
| `Types.Validate` | src/types/index.ts:42-49 | accepted iff name length >= 1, email passes the email check, age is a number >= 18 and role is one of the three values; the accepted record carries the input unchanged; on failure every failing field and only those has an entry, each with its own message |
| `Types.ValidatedIsSchemaValid` | src/types/index.ts:42-49 | every record the schema returns satisfies all field rules |
| `Types.ValidateAcceptsSchemaValid` | src/types/index.ts:42-49 | every record satisfying the field rules, entered in the form, is returned unchanged |
| `Types.NameRuleExamples` | src/types/index.ts:43 | a blank name " " is accepted; "" is rejected with "Name is required" alone |
| `Types.AgeRuleExamples` | src/types/index.ts:45 | 18 and 18.5 are accepted; 17 is rejected with "Age must be 18 or older" |
| `Types.RoleRuleExamples` | src/types/index.ts:46-48 | the placeholder "" and the key "ADMIN" are rejected; "" gets "Please select a valid role" |
| `Types.AllFailuresReportedTogether` | src/types/index.ts:42-49 | empty name, age 15 and no role give three messages together; four failing fields give four |
| `Storage.Serialize` | src/pages/AddUser.tsx:36-38 | writing replaces the whole slot with an array holding exactly the list |
| `Storage.StoredArray` | src/pages/AddUser.tsx:20-34 | the mount read yields a list iff the slot holds an array, and then exactly that array; absent, empty, unparseable and non-array slots yield nothing |
| `Storage.SerializeRoundTrip` | src/pages/AddUser.tsx:22-38 | reading back a written list gives the same list in the same order |
| `Storage.ReadAs` | src/pages/UserProfile.tsx:22 | casting the parsed array keeps its shape and length, element by element |
| `Home.ToLower` | src/pages/Home.tsx:29 | lower-casing keeps the length and lower-cases each ASCII letter |
| `Home.LowerForgetsCase` | src/pages/Home.tsx:29 | lower-casing is idempotent and gives the same string for the upper-cased term |
| `Home.Filter` | src/pages/Home.tsx:28-30 | the result contains exactly the users whose lower-cased name includes the lower-cased term, and is no longer than the list |
| `Home.FilterIsSubsequence` | src/pages/Home.tsx:28-30 | the result is an order-preserving subsequence of the list |
| `Home.FilterKeepsEveryMatch` | src/pages/Home.tsx:28-30 | every occurrence of a matching user is kept and every other user is dropped |
| `Home.FilterIgnoresTermCase` | src/pages/Home.tsx:29 | two terms that lower-case alike give the same result |
| `Home.FilterSameForAnyCase` | src/pages/Home.tsx:29 | the upper-cased or lower-cased term gives the same result as the term |
| `Home.FilterEmptyTermKeepsAll` | src/pages/Home.tsx:28-30 | the empty term returns the whole list |
| `Home.FilterFindsByLowerCasePrefix` | src/pages/Home.tsx:28-30 | "leanne" finds the user "Leanne Graham" |
| `Home.HomePage.constructor` | src/pages/Home.tsx:7-10 | the page starts with no users, loading, no error and an empty term |
| `Home.HomePage.FetchUsers` | src/pages/Home.tsx:13-23 | loading ends on both outcomes; success sets users to the response; failure sets "Failed to fetch users" and leaves users unchanged |
| `Home.HomePage.SetSearchTerm` | src/pages/Home.tsx:71 | typing sets the term |
| `Home.HomePage.ClearSearch` | src/pages/Home.tsx:32-34 | clearing sets the term to "" and the filtered list becomes the whole list |
| `Home.HomePage.View` | src/pages/Home.tsx:36-37 | loading first, then a truthy error showing that error's text, then "No users found." iff the filtered list is empty (line 134), else the table of the filtered users |
| `Home.Mount` | src/pages/Home.tsx:7-26 | after the fetch: on success the users and an unfiltered view of them; on failure no users and the error message shown |
| `AddUser.AddUserPage.constructor` | src/pages/AddUser.tsx:18 | the list starts empty; the slot is what was stored |
| `AddUser.AddUserPage.Save` | src/pages/AddUser.tsx:36-38 | the slot is overwritten with the whole list |
| `AddUser.AddUserPage.Mount` | src/pages/AddUser.tsx:20-38 | an array slot becomes the list as it is; otherwise the list is unchanged; in every case the slot then holds the list |
| `AddUser.AddUserPage.OnSubmit` | src/pages/AddUser.tsx:40-43 | exactly one record is appended at the end, and the slot holds the new list |
| `AddUser.AddUserPage.HandleSubmit` | src/pages/AddUser.tsx:57 | a valid input appends its validated, schema-valid record and saves; an invalid input returns its field messages and changes nothing |
| `AddUser.LoadedUsers` | src/pages/AddUser.tsx:20-34 | the list after mounting is the stored array, or empty for any other slot |
| `AddUser.MountPage` | src/pages/AddUser.tsx:18-38 | a fresh page holds the loaded list and the slot holds it too; an unusable slot is replaced by the empty array |
| `AddUser.ReloadKeepsUsers` | src/pages/AddUser.tsx:22-38 | a page mounted on a saved slot recovers the same list |
| `UserProfile.FirstMatch` | src/pages/UserProfile.tsx:23 | the index is the first record whose id is the route string, or the length when none is |
| `UserProfile.FindLocal` | src/pages/UserProfile.tsx:19-32 | a record is found iff the slot is an array holding a record with that string id, and it is the first such; every other slot yields no match rather than an error |
| `UserProfile.NonStringIdsNeverMatch` | src/pages/UserProfile.tsx:23 | records with numeric or missing ids are never found by the route string |
| `UserProfile.AddedUsersNeverFoundLocally` | src/pages/UserProfile.tsx:20-28 | no record written by the add-user page is found locally, whatever the id |
| `UserProfile.OrNotAvailable` | src/pages/UserProfile.tsx:59-61 | a missing or empty value shows as "N/A", a present one as itself |
| `UserProfile.AddressLine` | src/pages/UserProfile.tsx:62-66 | the address is street, suite, city and zipcode in that order, each followed by ", " except the last |
| `UserProfile.ProfileRows` | src/pages/UserProfile.tsx:56-67 | six rows in order Name, Email, Phone, Website, Company, Address; each optional row shows "N/A" exactly when its value is missing or empty (or is itself "N/A"), and a present non-empty value as itself; the address row is the joined line when present |
| `UserProfile.ProfilePage.constructor` | src/pages/UserProfile.tsx:9-12 | the page starts with no user, loading and no error |
| `UserProfile.ProfilePage.FetchUser` | src/pages/UserProfile.tsx:15-41 | loading ends on every path; a local match is used and no request is made; otherwise the request is made, success sets the user, failure sets "Failed to fetch user" and leaves the user as it was |
| `UserProfile.ProfilePage.View` | src/pages/UserProfile.tsx:47-49 | loading, then a truthy error showing that error's text, then "User not found" when there is no user, then the profile rows |
| `UserProfile.OpenProfile` | src/pages/UserProfile.tsx:14-45 | a local match is shown without a request; otherwise the API's user or its failure message is shown |

## Left out

- Markup, inline styles, focus and hover handlers, the routing table and the navigation bar: presentation and wiring only. The add-user page's "No users yet." table is presentation over `users` and is not modelled.
- HTTP requests: each request is replaced by its outcome, passed in as a `Response` value; network behaviour, retries and response status codes are not modelled.
- `JSON.parse`, `JSON.stringify` and the storage API: abstracted into `Slot`. Stored elements are typed records, so an element of another shape (a string, `null`, a record missing fields), which the source takes in unchanged, cannot be represented; in particular a `null` element that makes the profile page's `find` callback throw (which is caught and falls through to the API) is not modelled.
- Storage write failures (for example a full quota) are not modelled: a write always succeeds.
- The email pattern of the schema library: the check is the parameter `isEmail`.
- Non-string name or email inputs and infinite ages: the form's text inputs always give strings and a number input never gives an infinity, so the model's raw input types exclude them.
- Unicode case mapping: `ToLower` folds ASCII letters only.
- React scheduling: effects run to completion, in order, one at a time; double effects in development mode and stale fetch results applied after the route or page changed are not modelled.
- The form's `reset()` after a submission: it clears the form controls, which are not part of the model.
- Console logging of parse failures: it has no effect on state.
- `Home.HomePage.FetchUsers`: the response body is taken to be a list of users, as the source's types say; a body of another shape, on which `filter` would throw at render time, is not modelled.
