# Todo client core, modelled in Dafny

A model of the client logic of a React Native todo application that talks to a REST
backend. The screens, styling and HTTP transport are glue; three pieces carry behaviour
that can be stated and proved:

- **Form validation** (`Validation`, `validation.dfy`). The todo, login and signup Zod
  schemas become functions that list the issues Zod reports, in field order.
  `zodFieldErrors` becomes a method with a loop. The loop folds the issues into a
  `map<string, string>` from field name to message. The method is proved equal to the
  fold `Collected`, and lemmas about `Collected` state what the map holds: which fields
  appear, where each message comes from, and that the first message wins.
- **Todo cache coordinator** (`TodoList`, `todos.dfy`; `Dashboard`, `dashboard.dfy`).
  The cache for the query key `["todos"]` is one slot, `Option<seq<Todo>>`, plus a flag
  that marks it for refetch (class `QueryCache`). The dashboard (class `DashboardScreen`)
  runs two lifecycles against that slot:
  - create: validate, then issue the request; on success prepend the new todo; on error
    show an alert;
  - toggle: snapshot the slot, write the optimistic value, restore the snapshot on error,
    and always invalidate.
  The patches and the ALL/ACTIVE/COMPLETED and "remaining" projections are pure
  functions in `TodoList`.
- **Auth session** (`Auth`, `auth.dfy`). The session is `isLoading`, `user` and the
  token stored under `"auth_token"`. `bootstrap`, `login`, `signup` and `refreshMe`
  are functions from the old `Session` to a `Step`: the new session, the error raised
  to the caller, and whether `fetchMe` was called. `logout` is a function from the old
  `Session` to the new one. The lemmas are about
  these functions. Class `AuthProvider` updates its three fields step by step, as the
  provider does, and each method is proved to end in the state the matching function
  gives. The navigator's three-way screen choice is `RouteOf`.

Every network and storage result is a parameter of the operation that awaits it: the
`fetchMe` result, the login response, whether reading the token fails, and so on.

Points where the code is easy to misread:

- `zodFieldErrors` checks whether the stored message is truthy (`!result[key]`), not
  whether the key is present. An issue with an empty message therefore does not block a
  later issue for the same field. `FirstMessageWins` states the rule with that exception.
- `bootstrap` treats an empty stored token as no token. It signs nobody in and does not
  clear that token.
- `refreshMe` sets `user` to whatever `fetchMe` returns and does nothing else. A
  failing `fetchMe` leaves the session as it was and passes the error to the caller.

## Model

| member | source | states |
|---|---|---|
| `Validation.ZodFieldErrors` | src/utils/validation.ts:19-32 | The map built by the loop equals `FieldErrors(err)`: the fold `Collected` over the issues when `err` is an object with `issues`, otherwise the empty map. The invariant is that after `i` issues the map is `Collected` of the first `i`. |
| `Validation.CollectedKeys` | src/utils/validation.ts:24-28 | A field is a key of the result exactly when some issue's truthy `path[0]`, converted with `String`, equals that field. |
| `Validation.CollectedMessageOrigin` | src/utils/validation.ts:25-27 | Every message in the result is the message of an input issue reported under that field. |
| `Validation.NeverOverwritten` | src/utils/validation.ts:26-27 | Once a field holds a non-empty message, no later issue changes it. |
| `Validation.NoMessageBefore` | src/utils/validation.ts:26 | If every earlier issue for a field has an empty message, the field holds no message before index `n`. |
| `Validation.FirstMessageWins` | src/utils/validation.ts:24-28 | A field gets the message of its first issue, provided that message is non-empty. Earlier issues with empty messages under the same field do not count. |
| `Validation.FalsyKeyIgnored` | src/utils/validation.ts:25-26 | Removing an issue whose key is absent, `""` or `0` does not change the result, wherever that issue stands. |
| `Validation.TodoCreateAccepted` | src/utils/validation.ts:14-17 | The todo form parses exactly when 1 ≤ \|title\| ≤ 200 and the description is absent or has at most 1000 characters. The parsed data is the input itself. |
| `Validation.TodoCreateFieldErrors` | src/utils/validation.ts:15-16 | On rejection, the errors reach only `title` and `description`. `title` holds "Title is required" when the title is empty and "Title too long" when it has more than 200 characters. `description` holds "Description too long" exactly when the description has more than 1000 characters. |
| `Validation.LoginAccepted` | src/utils/validation.ts:3-6 | A login parses exactly when the e-mail check passes and the password has at least 6 characters; a short password gets "Password must be at least 6 characters". |
| `Validation.SignupAccepted` | src/utils/validation.ts:8-12 | A signup parses exactly when the name is non-empty, the e-mail check passes and the password has at least 6 characters; an empty name gets "Name is required". |
| `TodoList.WithCreated` | src/screens/DashboardScreen.tsx:39 | The create patch puts the created todo at index 0. The old list, or the empty list when the slot is absent, follows in its old order. |
| `TodoList.WithCompleted` | src/screens/DashboardScreen.tsx:61 | The toggle patch keeps the length. Entries with the target id get `completed` set to the requested value. Every other entry is unchanged. |
| `TodoList.Select` | src/screens/DashboardScreen.tsx:82-84 | A filter result is no longer than the list, and every element of it has the requested flag. |
| `TodoList.SelectAppend` | src/screens/DashboardScreen.tsx:82-84 | Filtering distributes over concatenation, so the relative order of the kept entries is preserved. |
| `TodoList.SelectExactly` | src/screens/DashboardScreen.tsx:82-84 | Each todo occurs in a filter result exactly as often as in the list if its flag matches, and otherwise not at all. |
| `TodoList.ActiveCompletedPartition` | src/screens/DashboardScreen.tsx:79-88 | The ACTIVE and COMPLETED lengths add up to the list's length, and their multisets add up to the list's multiset. |
| `TodoList.FilteredShape` | src/screens/DashboardScreen.tsx:79-88 | ALL returns the list unchanged. ACTIVE keeps only uncompleted entries of the list. COMPLETED keeps only completed ones. |
| `TodoList.RemainingAfterCreate` | src/screens/DashboardScreen.tsx:90 | After a create patch, `remaining` goes up by one exactly when the created todo is not completed. |
| `TodoList.RemainingAfterToggle` | src/screens/DashboardScreen.tsx:90 | With unique ids, toggling entry `k` changes `remaining` by its change of flag. |
| `TodoList.WithCompletedMissing` | src/screens/DashboardScreen.tsx:61 | If no entry has the id, the toggle patch changes nothing. |
| `TodoList.WithCompletedIdempotent` | src/screens/DashboardScreen.tsx:61 | Applying the same toggle patch twice gives the same list as applying it once. |
| `TodoList.WithCompletedUndone` | src/screens/DashboardScreen.tsx:61 | Patching back to the flag that all entries with that id had restores the original list. |
| `TodoList.OptimisticReadBack` | src/screens/DashboardScreen.tsx:59-62 | The optimistic write keeps an absent slot absent and keeps the length. The entries with the target id read back the requested flag straight away. |
| `Dashboard.TrimEmptyIffBlank` | src/screens/DashboardScreen.tsx:98 | `trim()` gives "" exactly when every character is JavaScript whitespace. So a blank description is submitted as absent, and any other description is submitted untrimmed. |
| `Dashboard.QueryCache.constructor` | src/screens/DashboardScreen.tsx:30-33 | Before any fetch, the slot is absent and marked for fetching. |
| `Dashboard.QueryCache.ListResolved` | src/screens/DashboardScreen.tsx:30-33 | A successful list fetch replaces the slot wholesale and clears the refetch mark. A failed fetch leaves both as they were. |
| `Dashboard.QueryCache.Invalidate` | src/screens/DashboardScreen.tsx:73 | Invalidation marks the slot for refetch and leaves its data alone. |
| `Dashboard.DashboardScreen.constructor` | src/screens/DashboardScreen.tsx:25-28 | The screen starts with an empty title, an empty description, no field errors, the ALL filter, neither mutation pending and no toggle snapshot. |
| `Dashboard.DashboardScreen.SetTitle` | src/screens/DashboardScreen.tsx:147-148 | Typing in the title field, possible only while no create is pending, sets the title and changes nothing else. |
| `Dashboard.DashboardScreen.SetDescription` | src/screens/DashboardScreen.tsx:156-157 | Typing in the description field, possible only while no create is pending, sets the description and changes nothing else. |
| `Dashboard.DashboardScreen.RemainingCount` | src/screens/DashboardScreen.tsx:90 | The count shown plus the length of the COMPLETED view is the length of the cached list. |
| `Dashboard.DashboardScreen.SetFilter` | src/screens/DashboardScreen.tsx:118 | Pressing a pill sets the filter, so the list shown is that projection of the cached list, and changes nothing else. |
| `Dashboard.DashboardScreen.OnCreate` | src/screens/DashboardScreen.tsx:92-107 | While a create is pending, nothing changes and no request is issued. Otherwise the errors are cleared and the title and submitted description are validated. A rejection sets the errors to the folded field errors and issues no request. Acceptance issues the parsed data and marks the create as pending. |
| `Dashboard.DashboardScreen.CreateSettled` | src/screens/DashboardScreen.tsx:37-46 | Success sets the slot to the created-todo patch of the old slot, clears the form and does not invalidate. Failure leaves the slot and the form untouched and alerts the server `detail`, or "Try again." when there is none. |
| `Dashboard.DashboardScreen.OnToggle` | src/screens/DashboardScreen.tsx:109-112 | While a toggle is pending, the press is ignored and nothing changes. Otherwise the request is `{id, !completed}`, the toggle becomes pending and `onMutate` runs. |
| `Dashboard.DashboardScreen.ToggleMutate` | src/screens/DashboardScreen.tsx:54-65 | The snapshot is the slot before the write. The slot becomes the optimistic patch of that snapshot, and an absent slot stays absent. |
| `Dashboard.DashboardScreen.ToggleSettled` | src/screens/DashboardScreen.tsx:66-74 | On error, the slot becomes the snapshot again if one was taken. On success, the slot is untouched. Either way it is then marked for refetch and the mutation is no longer pending. |
| `Dashboard.DashboardScreen.Toggle` | src/screens/DashboardScreen.tsx:49-75 | A whole toggle with nothing in between: after an error the slot is exactly what it was before the press; after success it holds the optimistic value; both end marked for refetch, with no toggle pending and no snapshot left. The alert is the error's text, or none on success. The form, the errors, the filter and the create flag are unchanged. |
| `Auth.BootstrapSettles` | src/context/AuthContext.tsx:25-42 | On every path, bootstrap ends with `isLoading` false, raises nothing, and leaves the navigator on the tabs or the sign-in stack. |
| `Auth.BootstrapWithoutToken` | src/context/AuthContext.tsx:28-32 | With no token, or an empty one, bootstrap signs nobody in, calls `fetchMe` no times and leaves the stored value alone. |
| `Auth.BootstrapWithToken` | src/context/AuthContext.tsx:33-38 | With a token, bootstrap calls `fetchMe`. Success signs in the fetched user and keeps the token. Failure clears the token and signs nobody in. |
| `Auth.BootstrapReadFailure` | src/context/AuthContext.tsx:28-38 | If reading the token fails, the token is cleared, nobody is signed in and `fetchMe` is not called. |
| `Auth.LoginRejected` | src/context/AuthContext.tsx:49 | A failed login call leaves the session exactly as it was, passes the error to the caller and does not call `fetchMe`. |
| `Auth.LoginStoresTokenFirst` | src/context/AuthContext.tsx:48-53 | After a successful login call, the access token is stored and then `fetchMe` is called. When `fetchMe` succeeds, its user is signed in. When it fails, the token stays, the user is unchanged and the error reaches the caller. |
| `Auth.SignupNeverAuthenticates` | src/context/AuthContext.tsx:55-60 | Signup never touches the token. Success leaves nobody signed in. Failure leaves the session unchanged and passes the error on. |
| `Auth.LogoutIdempotent` | src/context/AuthContext.tsx:62-65 | Logout clears the token and the user, and logging out twice gives the same session as logging out once. |
| `Auth.BootstrapAfterLogout` | src/context/AuthContext.tsx:25-32 | A bootstrap after logout makes no `fetchMe` call and ends on the sign-in stack. |
| `Auth.RefreshKeepsOnFailure` | src/context/AuthContext.tsx:67-70 | `refreshMe` replaces the user on success. On failure it leaves the session unchanged and passes the error on. |
| `Auth.RouteChoice` | src/navigation/AppNavigator.tsx:10-12 | The tabs are shown exactly when loading is over and `isAuthenticated` (`!!user`) holds. The sign-in stack is shown exactly when loading is over and it does not hold. |
| `Auth.AuthProvider.constructor` | src/context/AuthContext.tsx:20-21 | The provider starts loading, with nobody signed in and the persisted token in the slot. |
| `Auth.AuthProvider.Bootstrap` | src/context/AuthContext.tsx:25-42 | The field-by-field try/catch/finally ends in the session `Bootstrapped` gives, and it reports whether `fetchMe` was called. |
| `Auth.AuthProvider.Login` | src/context/AuthContext.tsx:48-53 | The step-by-step login ends in the session `LoggedIn` gives and raises the same error. |
| `Auth.AuthProvider.Signup` | src/context/AuthContext.tsx:55-60 | The step-by-step signup ends in the session `SignedUp` gives and raises the same error. |
| `Auth.AuthProvider.Logout` | src/context/AuthContext.tsx:62-65 | Logout ends in `LoggedOut` of the old session. |
| `Auth.AuthProvider.RefreshMe` | src/context/AuthContext.tsx:67-70 | `refreshMe` ends in the session `Refreshed` gives and raises the same error. |

## Left out

- Lengths: Zod counts a string's length in UTF-16 code units. The model uses the length of a Dafny `string`, which counts Unicode scalar values. The two differ for characters outside the Basic Multilingual Plane.
- Zod's e-mail check: its pattern lives in the library. The model takes its verdict as the boolean parameter `emailWellFormed`.
- Zod's schemas are not modelled in general. Only the issues these three schemas can report are produced, in Zod's field order. The model takes every field as a string; an input object missing a field, or holding a value of another type, would get a Zod type issue that the model does not produce.
- `Validation.KeyString`: a numeric path key is modelled as an integer. Non-integer numbers, `NaN` and keys that clash with `Object.prototype` names (`toString`, `__proto__`) are not modelled. Zod issues for these schemas never carry such keys.
- React Query internals: `cancelQueries` (DashboardScreen.tsx:55), the actual timing of refetches, `retry` and `staleTime` (App.tsx:7-14), and the `isLoading`/`isRefetching` flags. Invalidation is the `stale` flag. It is raised by `Invalidate`, cleared by a successful `ListResolved`, and not touched by a cache write.
- Interleaving: each lifecycle step is a separate method, so steps may be called in any order. The `requires` on `CreateSettled` and `ToggleSettled`, and the pending guards, only keep each mutation from overlapping itself. `Dashboard.DashboardScreen.Toggle` states the rollback only when nothing else runs between the press and the settlement. With an interleaved create success, when the slot held a list at the press, the restore removes the created todo until the refetch, as in the source; when the slot was absent there is no snapshot, nothing is restored and the created todo stays.
- The toggle's server response is ignored by the source (there is no `onSuccess`). The model ignores it too.
- Alerts, the `setTimeout` banners and re-rendering. An alert is returned as its text.
- HTTP transport and the `api` module (`src/services/*.ts`). Each call's result is a parameter. The login request's field name (`email` in the schema, `username` in the service) does not matter to the model, so the schema's `email` is kept.
- AsyncStorage: the token slot is the `storedToken` field. Writes and removals always succeed. Only the read in `bootstrap` may fail, and that is the `readFails` parameter.
- `Auth.BootstrapSettles`: states the value of `isLoading` at the end. That `isLoading` is true while bootstrap runs shows only as the initial state and the first assignment in `AuthProvider.Bootstrap`, because intermediate states cannot be observed.
- The user record: src/types/user.ts is not part of this model. `User` has an id and a username.
- Screens other than the dashboard, the navigation stacks, the components and the theme: presentation only.
